/**
 The sliding-window login throttle, for attempts handled one at a time.

 Failures are selected by comparing text (`failed_at >= ?`), so a failure in the
 same second as the cutoff can be missed or counted a moment too long.
 */
module Throttle {
  import opened Timestamp

  const WINDOW: Time := 15 * MINUTE
  const DELAY_THRESHOLD := 5
  const LOCK_THRESHOLD := 10
  const DELAY: Time := 2 * SECOND
  const REMOTE_IP := "unknown"

  datatype Row = Row(username: string, remoteIp: string, failedAt: Time)

  datatype Decision = Allow | Delay | Locked

  function Decide(count: int): Decision {
    if count >= LOCK_THRESHOLD then Locked else if count >= DELAY_THRESHOLD then Delay else Allow
  }

  /** `username = ? OR remote_ip = ?`. */
  predicate Matches(row: Row, username: string) {
    row.username == username || row.remoteIp == REMOTE_IP
  }

  /** `failed_at >= ?` on text. */
  predicate TextSince(at: Time, since: Time) {
    !TextBefore(at, since)
  }

  function CountSince(rows: seq<Row>, username: string, since: Time): (n: nat)
    ensures n <= |rows|
  {
    if rows == [] then 0
    else
      var last := rows[|rows| - 1];
      CountSince(rows[..|rows| - 1], username, since)
      + (if Matches(last, username) && TextSince(last.failedAt, since) then 1 else 0)
  }

  function Remaining(rows: seq<Row>, username: string): seq<Row> {
    if rows == [] then []
    else
      var last := rows[|rows| - 1];
      Remaining(rows[..|rows| - 1], username) + (if Matches(last, username) then [] else [last])
  }

  /** What checking the credentials gives, and whether the statement after it takes effect. */
  datatype Check = Correct(cleared: bool) | Wrong(recorded: bool) | Unreadable

  datatype Login = Login(username: string, now: Time, check: Check)

  function Attempt(rows: seq<Row>, l: Login): (seq<Row>, Decision) {
    var decision := Decide(CountSince(rows, l.username, l.now - WINDOW));
    if decision.Locked? then (rows, decision)
    else
      match l.check
      case Correct(cleared) => (if cleared then Remaining(rows, l.username) else rows, decision)
      case Wrong(recorded) => (if recorded then rows + [Row(l.username, REMOTE_IP, l.now)] else rows, decision)
      case Unreadable => (rows, decision)
  }

  class FailureTable {
    var rows: seq<Row>

    constructor ()
      ensures rows == []
    {
      rows := [];
    }

    method Count(username: string, since: Time) returns (n: nat)
      ensures n == CountSince(rows, username, since)
    {
      n := 0;
      assert rows[..|rows|] == rows;
      for i := 0 to |rows|
        invariant n == CountSince(rows[..i], username, since)
      {
        assert rows[..i + 1][..i] == rows[..i];
        if Matches(rows[i], username) && TextSince(rows[i].failedAt, since) {
          n := n + 1;
        }
      }
    }

    method Clear(username: string)
      modifies this
      ensures rows == Remaining(old(rows), username)
    {
      var kept: seq<Row> := [];
      assert rows[..|rows|] == rows;
      for i := 0 to |rows|
        invariant rows == old(rows) && kept == Remaining(rows[..i], username)
      {
        assert rows[..i + 1][..i] == rows[..i];
        if !Matches(rows[i], username) {
          kept := kept + [rows[i]];
        }
      }
      rows := kept;
    }

    /** `login_post`, `record_failure` and `finish_login`. */
    method LoginPost(l: Login) returns (decision: Decision)
      modifies this
      ensures (rows, decision) == Attempt(old(rows), l)
    {
      var count := Count(l.username, l.now - WINDOW);
      decision := Decide(count);
      if decision.Locked? {
        return;
      }
      match l.check
      case Correct(cleared) =>
        if cleared {
          Clear(l.username);
        }
      case Wrong(recorded) =>
        if recorded {
          rows := rows + [Row(l.username, REMOTE_IP, l.now)];
        }
      case Unreadable =>
    }
  }

  // -- Counting -----------------------------------------------------------------------------

  /** The failures of a closed interval. */
  function InWindow(rows: seq<Row>, x: Time, y: Time): (n: nat)
    ensures n <= |rows|
  {
    if rows == [] then 0
    else
      InWindow(rows[..|rows| - 1], x, y) + (if x <= rows[|rows| - 1].failedAt <= y then 1 else 0)
  }

  /** Every row was written by this server, in the order of the clock. */
  ghost predicate Ordered(rows: seq<Row>) {
    && (forall i | 0 <= i < |rows| :: rows[i].remoteIp == REMOTE_IP)
    && (forall i, j | 0 <= i < j < |rows| :: rows[i].failedAt <= rows[j].failedAt)
  }

  ghost predicate AllBy(rows: seq<Row>, now: Time) {
    forall i | 0 <= i < |rows| :: rows[i].failedAt <= now
  }

  /** Any eleven consecutive failures span more than `span`. */
  ghost predicate Spread(rows: seq<Row>, span: Time) {
    forall i | 0 <= i < |rows| - LOCK_THRESHOLD :: rows[i].failedAt + span < rows[i + LOCK_THRESHOLD].failedAt
  }

  lemma {:induction false} NoneBefore(rows: seq<Row>, x: Time, y: Time)
    requires forall i | 0 <= i < |rows| :: rows[i].failedAt < x
    ensures InWindow(rows, x, y) == 0
  {
    if rows != [] {
      NoneBefore(rows[..|rows| - 1], x, y);
    }
  }

  lemma {:induction false} Cut(rows: seq<Row>, k: nat, x: Time, y: Time)
    requires k <= |rows|
    ensures InWindow(rows, x, y) <= InWindow(rows[..k], x, y) + (|rows| - k)
    decreases |rows|
  {
    if k < |rows| {
      var init := rows[..|rows| - 1];
      assert init[..k] == rows[..k];
      Cut(init, k, x, y);
    } else {
      assert rows[..k] == rows;
    }
  }

  /** Spread-out rows: no closed interval that long holds more than ten. */
  lemma {:induction false} SpreadBounds(rows: seq<Row>, span: Time, x: Time)
    requires Ordered(rows) && Spread(rows, span)
    ensures InWindow(rows, x, x + span) <= LOCK_THRESHOLD
    decreases |rows|
  {
    if |rows| > LOCK_THRESHOLD {
      var n := |rows| - 1;
      if rows[n].failedAt > x + span {
        SpreadBounds(rows[..n], span, x);
      } else {
        var k := n - LOCK_THRESHOLD + 1;
        assert rows[k - 1].failedAt + span < rows[(k - 1) + LOCK_THRESHOLD].failedAt;
        forall i | 0 <= i < k ensures rows[..k][i].failedAt < x {
          assert i < k - 1 ==> rows[i].failedAt <= rows[k - 1].failedAt;
        }
        NoneBefore(rows[..k], x, x + span);
        Cut(rows, k, x, x + span);
      }
    }
  }

  /** No closed interval of length `span` holds more than ten failures. */
  ghost predicate Bounded(rows: seq<Row>, span: Time) {
    forall x :: TenFrom(rows, x, span)
  }

  predicate TenFrom(rows: seq<Row>, x: Time, span: Time) {
    InWindow(rows, x, x + span) <= LOCK_THRESHOLD
  }

  lemma {:induction false} PrefixCounts(rows: seq<Row>, k: nat, x: Time, y: Time)
    requires k <= |rows|
    ensures InWindow(rows[..k], x, y) <= InWindow(rows, x, y)
    decreases |rows|
  {
    if k < |rows| {
      var init := rows[..|rows| - 1];
      assert init[..k] == rows[..k];
      PrefixCounts(init, k, x, y);
    } else {
      assert rows[..k] == rows;
    }
  }

  lemma {:induction false} AllInWindow(rows: seq<Row>, k: nat, x: Time, y: Time)
    requires Ordered(rows) && AllBy(rows, y) && k <= |rows| && (k < |rows| ==> x <= rows[k].failedAt)
    ensures InWindow(rows, x, y) >= |rows| - k
    decreases |rows|
  {
    if k < |rows| {
      AllInWindow(rows[..|rows| - 1], k, x, y);
    }
  }

  lemma SpreadExactly(rows: seq<Row>, span: Time)
    requires Ordered(rows) && span >= 0
    ensures Bounded(rows, span) <==> Spread(rows, span)
  {
    if Spread(rows, span) {
      forall x ensures TenFrom(rows, x, span) { SpreadBounds(rows, span, x); }
    }
    if Bounded(rows, span) {
      forall i | 0 <= i < |rows| - LOCK_THRESHOLD ensures rows[i].failedAt + span < rows[i + LOCK_THRESHOLD].failedAt {
        var x, k := rows[i].failedAt, i + LOCK_THRESHOLD + 1;
        assert TenFrom(rows, x, span);
        if rows[k - 1].failedAt <= x + span {
          AllInWindow(rows[..k], i, x, x + span);
          PrefixCounts(rows, k, x, x + span);
        }
      }
    }
  }

  // -- The username does not matter ------------------------------------------------------------

  /** With one address for everybody, every failure counts against every username and every success clears all. */
  lemma {:induction false} OneBucket(rows: seq<Row>, a: string, b: string, since: Time)
    requires Ordered(rows)
    ensures CountSince(rows, a, since) == CountSince(rows, b, since)
    ensures Remaining(rows, a) == []
  {
    if rows != [] {
      OneBucket(rows[..|rows| - 1], a, b, since);
    }
  }

  // -- Text against time -------------------------------------------------------------------------

  /** The comparison leaves this time out although it is not before the cutoff. */
  predicate IsMissed(at: Time, since: Time) {
    since < at && Misordered(since, at)
  }

  /** It still takes this time in although it is before the cutoff. */
  predicate IsOverdue(at: Time, since: Time) {
    at < since && Misordered(at, since)
  }

  function Missed(rows: seq<Row>, since: Time): nat {
    if rows == [] then 0
    else Missed(rows[..|rows| - 1], since) + (if IsMissed(rows[|rows| - 1].failedAt, since) then 1 else 0)
  }

  function Overdue(rows: seq<Row>, since: Time): nat {
    if rows == [] then 0
    else Overdue(rows[..|rows| - 1], since) + (if IsOverdue(rows[|rows| - 1].failedAt, since) then 1 else 0)
  }

  lemma TextSinceExactly(at: Time, since: Time)
    ensures TextSince(at, since) <==> (since <= at && !IsMissed(at, since)) || IsOverdue(at, since)
  {
    if since < at {
      TextBeforeExactly(since, at);
      TextIsTotal(since, at);
    } else if at < since {
      TextBeforeExactly(at, since);
    } else {
      TextBeforeIsStrict(at, at);
    }
  }

  /** The count the throttle uses, against the number of failures in its closed window. */
  lemma {:induction false} CountExactly(rows: seq<Row>, username: string, since: Time, now: Time)
    requires Ordered(rows) && AllBy(rows, now)
    ensures CountSince(rows, username, since) + Missed(rows, since) == InWindow(rows, since, now) + Overdue(rows, since)
  {
    if rows != [] {
      CountExactly(rows[..|rows| - 1], username, since, now);
      assert Matches(rows[|rows| - 1], username);
      TextSinceExactly(rows[|rows| - 1].failedAt, since);
    }
  }

  /** A second of slack makes the count safe. */
  lemma {:induction false} CountAtLeast(rows: seq<Row>, username: string, since: Time, now: Time)
    requires Ordered(rows) && AllBy(rows, now)
    ensures InWindow(rows, since + SECOND, now) <= CountSince(rows, username, since)
    ensures CountSince(rows, username, since) <= InWindow(rows, since - SECOND, now)
  {
    if rows != [] {
      var at := rows[|rows| - 1].failedAt;
      CountAtLeast(rows[..|rows| - 1], username, since, now);
      assert Matches(rows[|rows| - 1], username);
      if since + SECOND <= at {
        TextBeforeAcrossSeconds(since, at);
      }
      if at < since - SECOND {
        TextBeforeAcrossSeconds(at, since);
      }
    }
  }

  // -- One attempt ---------------------------------------------------------------------------------

  ghost predicate Inv(rows: seq<Row>, now: Time) {
    Ordered(rows) && AllBy(rows, now) && Spread(rows, WINDOW - SECOND)
  }

  /** With fewer than ten rows in the window up to now, another keeps any eleven apart. */
  lemma RecordSpreads(rows: seq<Row>, row: Row, span: Time)
    requires Ordered(rows) && AllBy(rows, row.failedAt) && Spread(rows, span) && row.remoteIp == REMOTE_IP
    requires InWindow(rows, row.failedAt - span, row.failedAt) < LOCK_THRESHOLD
    ensures Ordered(rows + [row]) && Spread(rows + [row], span)
  {
    var n := |rows|;
    if n >= LOCK_THRESHOLD && rows[n - LOCK_THRESHOLD].failedAt >= row.failedAt - span {
      AllInWindow(rows, n - LOCK_THRESHOLD, row.failedAt - span, row.failedAt);
    }
  }

  lemma RecordInv(rows: seq<Row>, username: string, now: Time, before: Time)
    requires Inv(rows, before) && before <= now
    requires CountSince(rows, username, now - WINDOW) < LOCK_THRESHOLD
    ensures Inv(rows + [Row(username, REMOTE_IP, now)], now)
  {
    CountAtLeast(rows, username, now - WINDOW, now);
    assert now - WINDOW + SECOND == now - (WINDOW - SECOND);
    RecordSpreads(rows, Row(username, REMOTE_IP, now), WINDOW - SECOND);
  }

  lemma AttemptInv(rows: seq<Row>, l: Login, before: Time)
    requires Inv(rows, before) && before <= l.now
    ensures Inv(Attempt(rows, l).0, l.now)
  {
    OneBucket(rows, l.username, l.username, 0);
    if !Attempt(rows, l).1.Locked? && l.check.Wrong? {
      RecordInv(rows, l.username, l.now, before);
    }
  }

  /**
   One attempt, by the failures of the fifteen minutes up to it, corrected by what
   comparing text gets wrong: from ten on it is turned away and changes nothing; from
   five on it takes two seconds; a success forgets every failure and a wrong password
   adds one.
   */
  lemma AttemptExactly(rows: seq<Row>, l: Login)
    requires Ordered(rows) && AllBy(rows, l.now)
    ensures var since := l.now - 15 * MINUTE;
            var counted := InWindow(rows, since, l.now) + Overdue(rows, since) - Missed(rows, since);
            var (next, decision) := Attempt(rows, l);
            && (decision.Locked? <==> counted >= 10)
            && (decision.Allow? <==> counted < 5)
            && Over(l.now, decision) == (if 5 <= counted < 10 then l.now + 2 * SECOND else l.now)
            && next == (if counted >= 10 then rows
                        else if l.check == Correct(true) then []
                        else if l.check == Wrong(true) then rows + [Row(l.username, "unknown", l.now)]
                        else rows)
  {
    CountExactly(rows, l.username, l.now - WINDOW, l.now);
    OneBucket(rows, l.username, l.username, 0);
  }

  /** The rows a query counts. */
  ghost function Counted(rows: seq<Row>, username: string, since: Time): set<nat> {
    set i: nat | i < |rows| && (rows[i].username == username || rows[i].remoteIp == "unknown")
                 && !TextBefore(rows[i].failedAt, since)
  }

  lemma {:induction false} CountIsCounted(rows: seq<Row>, username: string, since: Time)
    ensures CountSince(rows, username, since) == |Counted(rows, username, since)|
  {
    if rows == [] {
      assert Counted(rows, username, since) == {};
    } else {
      var n := |rows| - 1;
      var init, rest := rows[..n], Counted(rows[..n], username, since);
      CountIsCounted(init, username, since);
      assert Counted(rows, username, since)
          == if Matches(rows[n], username) && TextSince(rows[n].failedAt, since) then rest + {n} else rest;
    }
  }

  /** A statement that clears rows takes every one of the username or address, and no other. */
  lemma {:induction false} ClearedExactly(rows: seq<Row>, username: string, row: Row)
    ensures multiset(Remaining(rows, username))[row]
            == if row.username == username || row.remoteIp == "unknown" then 0 else multiset(rows)[row]
  {
    if rows != [] {
      var init, last := rows[..|rows| - 1], rows[|rows| - 1];
      ClearedExactly(init, username, row);
      assert rows == init + [last];
    }
  }

  // -- Runs ------------------------------------------------------------------------------------------

  /** When an attempt read at `now` is over at the earliest: a delayed one sleeps before it goes on. */
  function Over(now: Time, decision: Decision): Time {
    if decision.Delay? then now + DELAY else now
  }

  /** Attempts one at a time: each begins when the one before is over. */
  predicate InOrder(rows: seq<Row>, since: Time, ls: seq<Login>)
    decreases |ls|
  {
    ls == []
    || (since <= ls[0].now
        && var (next, decision) := Attempt(rows, ls[0]); InOrder(next, Over(ls[0].now, decision), ls[1..]))
  }

  function Rows(rows: seq<Row>, ls: seq<Login>): seq<Row>
    decreases |ls|
  {
    if ls == [] then rows else Rows(Attempt(rows, ls[0]).0, ls[1..])
  }

  /** When the last attempt is over. */
  function Clock(rows: seq<Row>, since: Time, ls: seq<Login>): Time
    decreases |ls|
  {
    if ls == [] then since
    else var (next, decision) := Attempt(rows, ls[0]); Clock(next, Over(ls[0].now, decision), ls[1..])
  }

  lemma {:induction false} RunInv(rows: seq<Row>, ls: seq<Login>, since: Time)
    requires Inv(rows, since) && InOrder(rows, since, ls)
    ensures Inv(Rows(rows, ls), Clock(rows, since, ls))
    decreases |ls|
  {
    if ls != [] {
      var (next, decision) := Attempt(rows, ls[0]);
      AttemptInv(rows, ls[0], since);
      RunInv(next, ls[1..], Over(ls[0].now, decision));
    }
  }

  /** Over any run no closed interval one second short of the window ever holds more than ten failures. */
  lemma AtMostTen(ls: seq<Login>, start: Time, x: Time)
    requires InOrder([], start, ls)
    ensures InWindow(Rows([], ls), x, x + (WINDOW - SECOND)) <= LOCK_THRESHOLD
  {
    assert Inv([], start);
    RunInv([], ls, start);
    SpreadBounds(Rows([], ls), WINDOW - SECOND, x);
  }

  // -- The full window ---------------------------------------------------------------------------

  /** A failure is recorded on top of ten in the closed window exactly if enough of the ten are missed. */
  lemma EleventhExactly(rows: seq<Row>, username: string, now: Time)
    requires Ordered(rows) && AllBy(rows, now)
    requires InWindow(rows, now - WINDOW, now) == LOCK_THRESHOLD
    ensures Attempt(rows, Login(username, now, Wrong(true))).0 == rows + [Row(username, REMOTE_IP, now)]
            <==> Missed(rows, now - WINDOW) > Overdue(rows, now - WINDOW)
  {
    CountExactly(rows, username, now - WINDOW, now);
    assert |rows + [Row(username, REMOTE_IP, now)]| == |rows| + 1;
  }

  /** A failure leaves the full window with at most ten exactly if it held fewer. */
  lemma RecordKeepsExactly(rows: seq<Row>, row: Row)
    requires Ordered(rows) && AllBy(rows, row.failedAt) && Spread(rows, WINDOW) && row.remoteIp == REMOTE_IP
    ensures Spread(rows + [row], WINDOW)
            <==> InWindow(rows, row.failedAt - WINDOW, row.failedAt) < LOCK_THRESHOLD
  {
    var n, grown := |rows|, rows + [row];
    if InWindow(rows, row.failedAt - WINDOW, row.failedAt) < LOCK_THRESHOLD {
      RecordSpreads(rows, row, WINDOW);
    } else if Spread(grown, WINDOW) {
      var k := n - LOCK_THRESHOLD + 1;
      if k > 0 {
        assert grown[k - 1].failedAt + WINDOW < grown[(k - 1) + LOCK_THRESHOLD].failedAt;
        NoneBefore(rows[..k], row.failedAt - WINDOW, row.failedAt);
        Cut(rows, k, row.failedAt - WINDOW, row.failedAt);
      }
    }
  }

  /**
   A wrong password arrives with ten failures in the closed window, and the text
   comparison misses more of them than it takes in too long.
   */
  predicate Slips(rows: seq<Row>, l: Login) {
    && l.check == Wrong(true)
    && InWindow(rows, l.now - WINDOW, l.now) == LOCK_THRESHOLD
    && Missed(rows, l.now - WINDOW) > Overdue(rows, l.now - WINDOW)
  }

  lemma AttemptKeeps(rows: seq<Row>, l: Login)
    requires Ordered(rows) && AllBy(rows, l.now) && Spread(rows, WINDOW)
    ensures var next := Attempt(rows, l).0;
            Ordered(next) && AllBy(next, l.now) && (Spread(next, WINDOW) <==> !Slips(rows, l))
  {
    AttemptExactly(rows, l);
    SpreadBounds(rows, WINDOW, l.now - WINDOW);
    if l.check == Wrong(true) && !Attempt(rows, l).1.Locked? {
      RecordKeepsExactly(rows, Row(l.username, REMOTE_IP, l.now));
    }
  }

  /** The bound holds at the start and after every attempt. */
  ghost predicate AlwaysBounded(rows: seq<Row>, ls: seq<Login>)
    decreases |ls|
  {
    Bounded(rows, WINDOW) && (ls == [] || AlwaysBounded(Attempt(rows, ls[0]).0, ls[1..]))
  }

  predicate NeverSlips(rows: seq<Row>, ls: seq<Login>)
    decreases |ls|
  {
    ls == [] || (!Slips(rows, ls[0]) && NeverSlips(Attempt(rows, ls[0]).0, ls[1..]))
  }

  lemma {:induction false} BoundedExactly(rows: seq<Row>, ls: seq<Login>, since: Time)
    requires Ordered(rows) && AllBy(rows, since) && Spread(rows, WINDOW) && InOrder(rows, since, ls)
    ensures AlwaysBounded(rows, ls) <==> NeverSlips(rows, ls)
    decreases |ls|
  {
    SpreadExactly(rows, WINDOW);
    if ls != [] {
      var (next, decision) := Attempt(rows, ls[0]);
      AttemptKeeps(rows, ls[0]);
      SpreadExactly(next, WINDOW);
      if Spread(next, WINDOW) {
        BoundedExactly(next, ls[1..], Over(ls[0].now, decision));
      }
    }
  }

  /**
   Over a run no closed fifteen minutes ever hold more than ten failures exactly
   if no wrong password ever meets ten of which more are missed than overdue.
   */
  lemma FullWindowExactly(ls: seq<Login>, start: Time)
    requires InOrder([], start, ls)
    ensures AlwaysBounded([], ls) <==> NeverSlips([], ls)
  {
    BoundedExactly([], ls, start);
  }

  // -- Starting over ------------------------------------------------------------------------------

  /** Whether an attempt is let through at once, delayed or turned away, attempt by attempt. */
  function Decisions(rows: seq<Row>, ls: seq<Login>): (ds: seq<Decision>)
    ensures |ds| == |ls|
    decreases |ls|
  {
    if ls == [] then [] else [Attempt(rows, ls[0]).1] + Decisions(Attempt(rows, ls[0]).0, ls[1..])
  }

  lemma {:induction false} FewAreAllowed(rows: seq<Row>, ls: seq<Login>, i: nat)
    requires i < |ls|
    ensures |rows| + i < 5 ==> Decisions(rows, ls)[i].Allow?
    ensures |rows| + i < 10 ==> !Decisions(rows, ls)[i].Locked?
    decreases |ls|
  {
    if i > 0 {
      AttemptAdds(rows, ls[0]);
      FewAreAllowed(Attempt(rows, ls[0]).0, ls[1..], i - 1);
    }
  }

  lemma AttemptAdds(rows: seq<Row>, l: Login)
    ensures |Attempt(rows, l).0| <= |rows| + 1
  {
    RemainingIsLess(rows, l.username);
  }

  lemma {:induction false} RemainingIsLess(rows: seq<Row>, username: string)
    ensures |Remaining(rows, username)| <= |rows|
  {
    if rows != [] {
      RemainingIsLess(rows[..|rows| - 1], username);
    }
  }

  /**
   After a success, whoever failed before, the throttle starts over: the next five
   attempts are let through at once and the next ten are not turned away.
   */
  lemma SuccessStartsOver(rows: seq<Row>, l: Login, ls: seq<Login>)
    requires Ordered(rows) && l.check == Correct(true) && !Attempt(rows, l).1.Locked?
    ensures Rows(rows, [l] + ls) == Rows([], ls)
    ensures forall i | 0 <= i < |ls| && i < 5 :: Decisions(Attempt(rows, l).0, ls)[i].Allow?
    ensures forall i | 0 <= i < |ls| && i < 10 :: !Decisions(Attempt(rows, l).0, ls)[i].Locked?
  {
    OneBucket(rows, l.username, l.username, 0);
    assert ([l] + ls)[1..] == ls;
    forall i: nat | i < |ls|
      ensures i < 5 ==> Decisions([], ls)[i].Allow?
      ensures i < 10 ==> !Decisions([], ls)[i].Locked?
    {
      FewAreAllowed([], ls, i);
    }
  }

  // -- A run in which the full window holds eleven -----------------------------------------------

  const CUTOFF: Time := 500_000_000
  const FIRST: Time := 500_010_000

  /**
   The first failure is a moment after the cutoff of the eleventh, in the same
   second; nine more follow, one a minute.
   */
  function When(i: nat): Time {
    if i == 0 then FIRST else if i < 10 then i * MINUTE else CUTOFF + WINDOW
  }

  function Script(k: nat): seq<Login> {
    seq(k, i requires 0 <= i => Login("operator", When(i), Wrong(true)))
  }

  function Written(k: nat): seq<Row> {
    seq(k, i requires 0 <= i => Row("operator", REMOTE_IP, When(i)))
  }

  lemma {:induction false} RowsOfBoth(rows: seq<Row>, ls: seq<Login>, l: Login)
    ensures Rows(rows, ls + [l]) == Attempt(Rows(rows, ls), l).0
    decreases |ls|
  {
    if ls == [] {
      assert (ls + [l])[1..] == [];
    } else {
      assert (ls + [l])[1..] == ls[1..] + [l];
      RowsOfBoth(Attempt(rows, ls[0]).0, ls[1..], l);
    }
  }

  lemma {:induction false} TenAreRecorded(k: nat)
    requires k <= 10
    ensures Rows([], Script(k)) == Written(k)
  {
    if k > 0 {
      TenAreRecorded(k - 1);
      assert Script(k) == Script(k - 1) + [Login("operator", When(k - 1), Wrong(true))];
      assert Written(k) == Written(k - 1) + [Row("operator", REMOTE_IP, When(k - 1))];
      RowsOfBoth([], Script(k - 1), Login("operator", When(k - 1), Wrong(true)));
    }
  }

  lemma FirstIsMissed()
    ensures IsMissed(FIRST, CUTOFF)
  {
    NanosIsPow();
    assert Pow10(8) == 100_000_000 by { assert Pow10(4) == 10_000; }
    assert CUTOFF / Pow10(8) == 5 && CUTOFF % Pow10(8) == 0;
    assert FIRST / Pow10(8) == 5;
    var a, b := Digits(CUTOFF, 9), Digits(FIRST, 9);
    assert a == [DigitChar(5)] + "" && b[0] == DigitChar(5);
    assert a <= b;
  }

  lemma WhenIs(k: nat)
    requires 1 <= k <= 10
    ensures When(k - 1) + DELAY <= When(k) && CUTOFF + SECOND <= When(k) <= CUTOFF + WINDOW
  {
  }

  lemma LaterAreCounted(k: nat)
    requires 1 <= k <= 10
    ensures CUTOFF <= When(k) <= CUTOFF + WINDOW && !IsMissed(When(k), CUTOFF) && !IsOverdue(When(k), CUTOFF)
  {
    WhenIs(k);
    TextBeforeAcrossSeconds(CUTOFF, When(k));
    TextBeforeExactly(CUTOFF, When(k));
  }

  lemma {:induction false} WrittenCounts(k: nat)
    requires k <= 10
    ensures InWindow(Written(k), CUTOFF, CUTOFF + WINDOW) == k
    ensures Missed(Written(k), CUTOFF) == (if k == 0 then 0 else 1)
    ensures Overdue(Written(k), CUTOFF) == 0
  {
    if k > 0 {
      var rows := Written(k);
      WrittenCounts(k - 1);
      assert rows[..|rows| - 1] == Written(k - 1) && rows[|rows| - 1].failedAt == When(k - 1);
      if k == 1 {
        FirstIsMissed();
      } else {
        LaterAreCounted(k - 1);
      }
    }
  }

  lemma {:induction false} WhenGrows(i: nat, j: nat)
    requires i <= j <= 10
    ensures When(i) <= When(j)
    decreases j
  {
    if i < j {
      WhenIs(j);
      WhenGrows(i, j - 1);
    }
  }

  lemma WrittenIsOrdered(k: nat)
    requires k <= 10
    ensures Ordered(Written(k)) && AllBy(Written(k), CUTOFF + WINDOW)
  {
    forall i, j | 0 <= i < j < k ensures Written(k)[i].failedAt <= Written(k)[j].failedAt { WhenGrows(i, j); }
    forall i | 0 <= i < k ensures Written(k)[i].failedAt <= CUTOFF + WINDOW { WhenGrows(i, 10); }
  }

  /** Eleven wrong passwords, tried one at a time, are all recorded within fifteen minutes. */
  lemma ElevenInTheWindow()
    ensures InOrder([], 0, Script(11))
    ensures InWindow(Rows([], Script(11)), CUTOFF, CUTOFF + WINDOW) == 11
  {
    ScriptInOrder(0, 0);
    assert Script(11)[0..] == Script(11) && Written(0) == [];
    EleventhIsRecorded();
    var row := Row("operator", REMOTE_IP, CUTOFF + WINDOW);
    WrittenCounts(10);
    assert (Written(10) + [row])[..10] == Written(10);
  }

  lemma EleventhIsRecorded()
    ensures Rows([], Script(11)) == Written(10) + [Row("operator", REMOTE_IP, CUTOFF + WINDOW)]
  {
    TenAreRecorded(10);
    WrittenCounts(10);
    WrittenIsOrdered(10);
    EleventhExactly(Written(10), "operator", CUTOFF + WINDOW);
    var last := Login("operator", When(10), Wrong(true));
    assert Script(11) == Script(10) + [last];
    RowsOfBoth([], Script(10), last);
  }

  /** Every attempt of the script begins well after the one before, even a delayed one, is over. */
  lemma {:induction false} ScriptInOrder(k: nat, since: Time)
    requires k <= 11 && (k < 11 ==> since <= When(k))
    ensures InOrder(Written(k), since, Script(11)[k..])
    decreases 11 - k
  {
    if k < 11 {
      var l, rest := Script(11)[k], Script(11)[k..];
      assert rest[0] == l && rest[1..] == Script(11)[k + 1..];
      var (next, decision) := Attempt(Written(k), l);
      if k < 10 {
        assert next == Written(k + 1);
        WhenIs(k + 1);
        ScriptInOrder(k + 1, Over(l.now, decision));
      } else {
        assert rest[1..] == [];
      }
    }
  }

  // -- The lock lifts -------------------------------------------------------------------------------

  /**
   Locked only as long as ten failures lie within the window and a second; with
   none that recent an attempt is let through.
   */
  lemma LockLifts(rows: seq<Row>, l: Login)
    requires Ordered(rows) && AllBy(rows, l.now)
    ensures InWindow(rows, l.now - WINDOW - SECOND, l.now) < LOCK_THRESHOLD ==> !Attempt(rows, l).1.Locked?
    ensures InWindow(rows, l.now - WINDOW + SECOND, l.now) >= LOCK_THRESHOLD ==> Attempt(rows, l).1.Locked?
    ensures AllBy(rows, l.now - WINDOW - SECOND - 1) ==> Attempt(rows, l).1.Allow?
  {
    CountAtLeast(rows, l.username, l.now - WINDOW, l.now);
    if AllBy(rows, l.now - WINDOW - SECOND - 1) {
      NoneBefore(rows, l.now - WINDOW - SECOND, l.now);
    }
  }

  lemma {:induction false} WindowGrows(rows: seq<Row>, x: Time, y: Time, a: Time, b: Time)
    requires a <= x && (y <= b || AllBy(rows, b))
    ensures InWindow(rows, x, y) <= InWindow(rows, a, b)
  {
    if rows != [] {
      WindowGrows(rows[..|rows| - 1], x, y, a, b);
    }
  }

  /**
   Until ten failures are about to leave the window every attempt is turned away,
   the right password or a wrong one, and none adds or clears a failure.
   */
  lemma {:induction false} LockHolds(rows: seq<Row>, ls: seq<Login>, since: Time, until: Time)
    requires Ordered(rows) && AllBy(rows, since) && InOrder(rows, since, ls)
    requires forall i | 0 <= i < |ls| :: ls[i].now <= until
    requires InWindow(rows, until - WINDOW + SECOND, until) >= LOCK_THRESHOLD
    ensures Rows(rows, ls) == rows
    ensures forall i | 0 <= i < |ls| :: Attempt(Rows(rows, ls[..i]), ls[i]).1.Locked?
    decreases |ls|
  {
    if ls != [] {
      var l, rest := ls[0], ls[1..];
      WindowGrows(rows, until - WINDOW + SECOND, until, l.now - WINDOW + SECOND, l.now);
      LockLifts(rows, l);
      LockHolds(rows, rest, l.now, until);
      forall i | 0 <= i < |ls| ensures Attempt(Rows(rows, ls[..i]), ls[i]).1.Locked? {
        if i > 0 {
          assert ls[..i][1..] == rest[..i - 1] && ls[i] == rest[i - 1];
        }
      }
    }
  }

  /** However many attempts a lock turns away, the first one after the window is let through. */
  lemma {:induction false} LockAlwaysLifts(rows: seq<Row>, ls: seq<Login>, since: Time, l: Login)
    requires Ordered(rows) && AllBy(rows, since) && since + WINDOW + SECOND < l.now
    requires forall i | 0 <= i < |ls| :: Attempt(Rows(rows, ls[..i]), ls[i]).1.Locked?
    ensures Rows(rows, ls) == rows && Attempt(Rows(rows, ls), l).1.Allow?
    decreases |ls|
  {
    if ls == [] {
      LockLifts(rows, l);
    } else {
      var rest := ls[1..];
      assert ls[..0] == [] && Attempt(Rows(rows, ls[..0]), ls[0]).1.Locked?;
      forall i | 0 <= i < |rest| ensures Attempt(Rows(rows, rest[..i]), rest[i]).1.Locked? {
        assert Attempt(Rows(rows, ls[..i + 1]), ls[i + 1]).1.Locked?;
        assert ls[..i + 1][1..] == rest[..i];
      }
      LockAlwaysLifts(rows, rest, since, l);
    }
  }
}
