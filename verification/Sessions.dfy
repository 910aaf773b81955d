/**
 Operator Sessions: a row read, a decision on it, and a conditional update that
 refreshes the idle deadline. Tokens stand for their hashes.
 */
module Sessions {
  import opened Timestamp
  import opened Wrappers

  const IDLE_TTL: Time := 7 * DAY
  const ABSOLUTE_TTL: Time := 14 * DAY

  type Token = nat

  datatype Session = Session(
    createdAt: Time,
    lastSeenAt: Time,
    idleExpiresAt: Time,
    absoluteExpiresAt: Time,
    revokedAt: Option<Time>)

  type Table = map<Token, Session>

  datatype Validity = Active | Revoked | IdleExpired | AbsoluteExpired

  function Evaluate(s: Session, now: Time): Validity {
    if s.revokedAt.Some? then Revoked
    else if now >= s.absoluteExpiresAt then AbsoluteExpired
    else if now >= s.idleExpiresAt then IdleExpired
    else Active
  }

  function Fresh(now: Time): Session {
    Session(now, now, now + IDLE_TTL, now + ABSOLUTE_TTL, None)
  }

  function Earlier(a: Time, b: Time): Time { if a <= b then a else b }

  function Refreshed(s: Session, now: Time): Session {
    s.(lastSeenAt := now, idleExpiresAt := Earlier(now + IDLE_TTL, s.absoluteExpiresAt))
  }

  /** One row after a call and its answer, when nothing comes between the read and the touch. */
  function Used(s: Session, now: Time): (Session, bool) {
    if Evaluate(s, now) == Active then (Refreshed(s, now), true) else (s, false)
  }

  function LoggedOut(s: Session, now: Time): Session {
    if s.revokedAt.Some? then s else s.(revokedAt := Some(now))
  }

  class SessionStore {
    var sessions: Table

    constructor ()
      ensures sessions == map[]
    {
      sessions := map[];
    }

    method StartSession(token: Token, now: Time)
      requires token !in sessions
      modifies this
      ensures sessions == old(sessions)[token := Fresh(now)]
    {
      sessions := sessions[token := Session(now, now, now + IDLE_TTL, now + ABSOLUTE_TTL, None)];
    }

    method GetSession(token: Token) returns (session: Option<Session>)
      ensures session == if token in sessions then Some(sessions[token]) else None
    {
      return if token in sessions then Some(sessions[token]) else None;
    }

    /** Updates only a row that is still not revoked. */
    method TouchSession(token: Token, lastSeenAt: Time, idleExpiresAt: Time) returns (touched: bool)
      modifies this
      ensures touched <==> token in old(sessions) && old(sessions)[token].revokedAt.None?
      ensures sessions == if !touched then old(sessions)
                          else old(sessions)[token := old(sessions)[token].(lastSeenAt := lastSeenAt,
                                                                            idleExpiresAt := idleExpiresAt)]
    {
      if token !in sessions || sessions[token].revokedAt.Some? {
        return false;
      }
      sessions := sessions[token := sessions[token].(lastSeenAt := lastSeenAt, idleExpiresAt := idleExpiresAt)];
      return true;
    }

    method RevokeSession(token: Token, at: Time) returns (revoked: bool)
      modifies this
      ensures revoked <==> token in old(sessions) && old(sessions)[token].revokedAt.None?
      ensures sessions == if token in old(sessions) then old(sessions)[token := LoggedOut(old(sessions)[token], at)]
                          else old(sessions)
    {
      if token !in sessions || sessions[token].revokedAt.Some? {
        assert token in sessions ==> sessions == sessions[token := sessions[token]];
        return false;
      }
      sessions := sessions[token := sessions[token].(revokedAt := Some(at))];
      return true;
    }

    method Authenticate(token: Token, now: Time) returns (session: Option<Session>)
      modifies this
      ensures token !in old(sessions) ==> session == None && sessions == old(sessions)
      ensures token in old(sessions) ==>
                var (row, accepted) := Used(old(sessions)[token], now);
                && sessions == old(sessions)[token := row]
                && session == if accepted then Some(row) else None
    {
      var found := GetSession(token);
      if found.None? {
        return None;
      }
      if Evaluate(found.value, now) != Active {
        assert sessions == sessions[token := sessions[token]];
        return None;
      }
      var refreshedIdle := Earlier(now + IDLE_TTL, found.value.absoluteExpiresAt);
      var touched := TouchSession(token, now, refreshedIdle);
      if !touched {
        return None;
      }
      return Some(found.value.(lastSeenAt := now, idleExpiresAt := refreshedIdle));
    }
  }

  // -- Sequential use -----------------------------------------------------------------------

  datatype Op = Call(at: Time) | Logout(at: Time)

  /** Which operations of a history are calls that succeed. */
  function Outcomes(s: Session, ops: seq<Op>): (r: seq<bool>)
    ensures |r| == |ops|
    decreases |ops|
  {
    if ops == [] then []
    else
      match ops[0]
      case Call(at) => [Used(s, at).1] + Outcomes(Used(s, at).0, ops[1..])
      case Logout(at) => [false] + Outcomes(LoggedOut(s, at), ops[1..])
  }

  /** Times never go backwards, from `since` on. */
  predicate Ordered(since: Time, ops: seq<Op>) {
    forall i | 0 <= i < |ops| :: Previous(since, ops, i) <= ops[i].at
  }

  function Previous(since: Time, ops: seq<Op>, i: nat): Time
    requires i < |ops|
  {
    if i == 0 then since else ops[i - 1].at
  }

  /** No logout up to `k`, never seven days between one call and the next, and not yet the absolute deadline. */
  predicate Lives(since: Time, absolute: Time, ops: seq<Op>, k: nat)
    requires k < |ops|
  {
    && ops[k].at < absolute
    && forall i | 0 <= i <= k :: ops[i].Call? && ops[i].at < Previous(since, ops, i) + 7 * DAY
  }

  lemma OrderedRest(since: Time, ops: seq<Op>)
    requires ops != [] && Ordered(since, ops)
    ensures since <= ops[0].at && Ordered(ops[0].at, ops[1..])
  {
    assert Previous(since, ops, 0) <= ops[0].at;
    forall i | 0 <= i < |ops[1..]| ensures Previous(ops[0].at, ops[1..], i) <= ops[1..][i].at {
      assert Previous(since, ops, i + 1) <= ops[i + 1].at;
    }
  }

  /** A session that is not active stays so. */
  lemma {:induction false} DeadForGood(s: Session, since: Time, ops: seq<Op>, k: nat)
    requires Ordered(since, ops) && Evaluate(s, since) != Active && k < |ops|
    ensures !Outcomes(s, ops)[k]
    decreases k
  {
    OrderedRest(since, ops);
    if k > 0 {
      var next := if ops[0].Call? then Used(s, ops[0].at).0 else LoggedOut(s, ops[0].at);
      DeadForGood(next, ops[0].at, ops[1..], k - 1);
    }
  }

  lemma LivesLater(since: Time, absolute: Time, ops: seq<Op>, k: nat)
    requires 0 < k < |ops|
    ensures Lives(since, absolute, ops, k)
      <==> ops[0].Call? && ops[0].at < since + IDLE_TTL && Lives(ops[0].at, absolute, ops[1..], k - 1)
  {
    var rest := ops[1..];
    if Lives(since, absolute, ops, k) {
      forall i | 0 <= i <= k - 1 ensures rest[i].Call? && rest[i].at < Previous(ops[0].at, rest, i) + IDLE_TTL {
        assert ops[i + 1].Call? && ops[i + 1].at < Previous(since, ops, i + 1) + IDLE_TTL;
      }
      assert ops[0].Call? && ops[0].at < Previous(since, ops, 0) + IDLE_TTL;
    }
    if ops[0].Call? && ops[0].at < since + IDLE_TTL && Lives(ops[0].at, absolute, rest, k - 1) {
      forall i | 0 <= i <= k ensures ops[i].Call? && ops[i].at < Previous(since, ops, i) + IDLE_TTL {
        assert i > 0 ==> rest[i - 1].Call? && rest[i - 1].at < Previous(ops[0].at, rest, i - 1) + IDLE_TTL;
      }
    }
  }

  lemma {:induction false} LiveUntil(s: Session, since: Time, ops: seq<Op>, k: nat)
    requires s.revokedAt.None? && s.idleExpiresAt == Earlier(since + IDLE_TTL, s.absoluteExpiresAt)
    requires Ordered(since, ops) && k < |ops|
    ensures Outcomes(s, ops)[k] <==> Lives(since, s.absoluteExpiresAt, ops, k)
    decreases k
  {
    OrderedRest(since, ops);
    if k > 0 {
      var (at, rest) := (ops[0].at, ops[1..]);
      LivesLater(since, s.absoluteExpiresAt, ops, k);
      if ops[0].Call? && Evaluate(s, at) == Active {
        LiveUntil(Refreshed(s, at), at, rest, k - 1);
      } else {
        var next := if ops[0].Call? then s else LoggedOut(s, at);
        DeadForGood(next, at, rest, k - 1);
        assert ops[0].Call? ==> at >= s.idleExpiresAt;
        if ops[0].Call? && at >= s.absoluteExpiresAt {
          LaterStill(at, rest, k - 1);
        }
      }
    }
  }

  lemma {:induction false} LaterStill(since: Time, ops: seq<Op>, k: nat)
    requires Ordered(since, ops) && k < |ops|
    ensures since <= ops[k].at
    decreases k
  {
    assert Previous(since, ops, k) <= ops[k].at;
    if k > 0 {
      LaterStill(since, ops, k - 1);
    }
  }

  /**
   A call succeeds exactly when the session was never logged out, fewer than
   fourteen days have passed since it was created, and fewer than seven between
   any two calls so far.
   */
  lemma CallsSucceedExactly(created: Time, ops: seq<Op>, k: nat)
    requires Ordered(created, ops) && k < |ops|
    ensures Outcomes(Fresh(created), ops)[k] <==> Lives(created, created + 14 * DAY, ops, k)
  {
    LiveUntil(Fresh(created), created, ops, k);
  }

  /** After one rejection, or a logout, no call succeeds. */
  lemma RejectionIsPermanent(created: Time, ops: seq<Op>, j: nat, k: nat)
    requires Ordered(created, ops) && j < k < |ops| && !Outcomes(Fresh(created), ops)[j]
    ensures !Outcomes(Fresh(created), ops)[k]
  {
    CallsSucceedExactly(created, ops, j);
    CallsSucceedExactly(created, ops, k);
    if Lives(created, created + ABSOLUTE_TTL, ops, k) {
      OrderedBetween(created, ops, j, k);
      assert Lives(created, created + ABSOLUTE_TTL, ops, j);
    }
  }

  lemma {:induction false} OrderedBetween(since: Time, ops: seq<Op>, j: nat, k: nat)
    requires Ordered(since, ops) && j <= k < |ops|
    ensures ops[j].at <= ops[k].at
    decreases k
  {
    if j < k {
      assert Previous(since, ops, k) <= ops[k].at;
      OrderedBetween(since, ops, j, k - 1);
    }
  }

  /** The row after a history. */
  function After(s: Session, ops: seq<Op>): Session
    decreases |ops|
  {
    if ops == [] then s
    else
      match ops[0]
      case Call(at) => After(Used(s, at).0, ops[1..])
      case Logout(at) => After(LoggedOut(s, at), ops[1..])
  }

  /** When the last call that succeeded was made, or `since` if none did. */
  function LastUse(since: Time, ops: seq<Op>, outcomes: seq<bool>): Time
    requires |ops| == |outcomes|
    decreases |ops|
  {
    if ops == [] then since else LastUse(if outcomes[0] then ops[0].at else since, ops[1..], outcomes[1..])
  }

  function FirstLogout(ops: seq<Op>): Option<Time>
    decreases |ops|
  {
    if ops == [] then None else if ops[0].Logout? then Some(ops[0].at) else FirstLogout(ops[1..])
  }

  lemma {:induction false} RowFrom(s: Session, ops: seq<Op>)
    requires s.idleExpiresAt == Earlier(s.lastSeenAt + 7 * DAY, s.absoluteExpiresAt)
    ensures var last := LastUse(s.lastSeenAt, ops, Outcomes(s, ops));
            var ended := if s.revokedAt.Some? then s.revokedAt else FirstLogout(ops);
            After(s, ops) == s.(lastSeenAt := last, idleExpiresAt := Earlier(last + 7 * DAY, s.absoluteExpiresAt),
                                revokedAt := ended)
    decreases |ops|
  {
    if ops != [] {
      var at := ops[0].at;
      RowFrom(if ops[0].Call? then Used(s, at).0 else LoggedOut(s, at), ops[1..]);
    }
  }

  /**
   The row after any history: last seen at the last call that succeeded, idle seven
   days after that but never past fourteen days after creation, revoked at the first
   logout.
   */
  lemma RowAfter(created: Time, ops: seq<Op>)
    ensures var last := LastUse(created, ops, Outcomes(Fresh(created), ops));
            var absolute := created + 14 * DAY;
            After(Fresh(created), ops)
            == Session(created, last, if last + 7 * DAY <= absolute then last + 7 * DAY else absolute, absolute,
                       FirstLogout(ops))
  {
    RowFrom(Fresh(created), ops);
  }

  // -- Concurrent use -----------------------------------------------------------------------

  /** A call between its read and its touch. */
  datatype Held = Held(token: Token, now: Time, read: Session)

  datatype State = State(table: Table, calls: map<nat, Held>, accepted: multiset<Token>)

  datatype Step =
    | SignIn(token: Token, now: Time)
    | Read(call: nat, token: Token, now: Time)
    | Touch(call: nat)
    | Revoke(token: Token, at: Time)

  predicate Enabled(s: State, step: Step) {
    match step
    case SignIn(token, _) => token !in s.table
    case Read(call, _, _) => call !in s.calls
    case Touch(call) => call in s.calls
    case Revoke(_, _) => true
  }

  function Apply(s: State, step: Step): State
    requires Enabled(s, step)
  {
    match step
    case SignIn(token, now) => s.(table := s.table[token := Fresh(now)])
    case Read(call, token, now) =>
      if token in s.table && Evaluate(s.table[token], now) == Active
      then s.(calls := s.calls[call := Held(token, now, s.table[token])])
      else s
    case Touch(call) =>
      var c := s.calls[call];
      if c.token !in s.table || s.table[c.token].revokedAt.Some? then s.(calls := s.calls - {call})
      else
        var idle := Earlier(c.now + IDLE_TTL, c.read.absoluteExpiresAt);
        State(s.table[c.token := s.table[c.token].(lastSeenAt := c.now, idleExpiresAt := idle)],
              s.calls - {call}, s.accepted + multiset{c.token})
    case Revoke(token, at) =>
      if token in s.table then s.(table := s.table[token := LoggedOut(s.table[token], at)]) else s
  }

  ghost predicate Legal(s: State, steps: seq<Step>)
    decreases |steps|
  {
    steps == [] || (Enabled(s, steps[0]) && Legal(Apply(s, steps[0]), steps[1..]))
  }

  ghost function Run(s: State, steps: seq<Step>): State
    requires Legal(s, steps)
    decreases |steps|
  {
    if steps == [] then s else Run(Apply(s, steps[0]), steps[1..])
  }

  const NOBODY := State(map[], map[], multiset{})

  ghost predicate RowInv(row: Session) {
    row.idleExpiresAt <= row.absoluteExpiresAt == row.createdAt + ABSOLUTE_TTL
  }

  ghost predicate Inv(s: State) {
    && (forall t | t in s.table :: RowInv(s.table[t]))
    && (forall c | c in s.calls :: s.calls[c].token in s.table
          && s.calls[c].read.absoluteExpiresAt == s.table[s.calls[c].token].absoluteExpiresAt)
  }

  lemma {:induction false} RunInv(s: State, steps: seq<Step>)
    requires Inv(s) && Legal(s, steps)
    ensures Inv(Run(s, steps))
    decreases |steps|
  {
    if steps != [] {
      RunInv(Apply(s, steps[0]), steps[1..]);
    }
  }

  /** Under any interleaving the idle deadline never passes the absolute one. */
  lemma IdleWithinAbsolute(steps: seq<Step>, token: Token)
    requires Legal(NOBODY, steps) && token in Run(NOBODY, steps).table
    ensures var row := Run(NOBODY, steps).table[token];
            row.idleExpiresAt <= row.absoluteExpiresAt == row.createdAt + 14 * DAY
  {
    RunInv(NOBODY, steps);
  }

  /**
   From its revocation on, whatever calls already read, a session is never
   accepted again and its row never changes.
   */
  lemma {:induction false} RevokedForGood(s: State, steps: seq<Step>, token: Token)
    requires Legal(s, steps) && token in s.table && s.table[token].revokedAt.Some?
    ensures var v := Run(s, steps);
            && token in v.table && v.table[token] == s.table[token]
            && v.accepted[token] == s.accepted[token]
    decreases |steps|
  {
    if steps != [] {
      RevokedForGood(Apply(s, steps[0]), steps[1..], token);
    }
  }
}
