/**
 The timeline of one piece of retried work, shared by Transcription and Delivery.

 Attempts fall into retry windows: a window ends with a terminal failure and the
 Operator's manual retry opens the next. The first window is anchored at `first`,
 the k-th later one at the k-th manual retry.
 */
module Tracks {
  import opened Domain
  import opened Retry
  import opened Timestamp

  datatype Phase = Active | GivenUp | Done

  datatype Track = Track(
    attempts: seq<Attempt>,
    first: Time,
    retries: seq<Time>,
    window: Time,
    phase: Phase)

  /** How many of the first `i` attempts failed for good: the number of the window attempt `i` is in. */
  function Terminals(a: seq<Attempt>, i: nat): nat
    requires i <= |a|
  {
    if i == 0 then 0
    else Terminals(a, i - 1) + (if a[i - 1].state.TerminalFailure? then 1 else 0)
  }

  function AnchorAt(t: Track, i: nat): Time
    requires i <= |t.attempts| && Terminals(t.attempts, i) <= |t.retries|
  {
    var k := Terminals(t.attempts, i);
    if k == 0 then t.first else t.retries[k - 1]
  }

  /** The position of attempt `i` within its window, from 0. */
  function Position(a: seq<Attempt>, i: nat): nat
    requires i < |a|
  {
    if i == 0 || a[i - 1].state.TerminalFailure? then 0 else 1 + Position(a, i - 1)
  }

  /** The wait owed after an attempt: a manual retry waives it once, after a terminal failure. */
  function Wait(a: Attempt, number: int): Time {
    if a.state.TerminalFailure? then 0 else Backoff(number)
  }

  ghost predicate GoodAttempt(t: Track, i: nat, clock: Time)
    requires i < |t.attempts|
  {
    var a := t.attempts;
    && Terminals(a, i) <= |t.retries|
    && a[i].startedAt <= clock
    && (i > 0 ==> !a[i - 1].Open() && !a[i - 1].state.Succeeded?
                  && a[i - 1].FinishedAt() + Wait(a[i - 1], i) <= a[i].startedAt)
    && (!a[i].Open() ==> a[i].startedAt <= a[i].FinishedAt() <= clock
                         && AnchorAt(t, i) <= a[i].FinishedAt())
    && (a[i].state.RetryableFailure? ==> a[i].FinishedAt() < AnchorAt(t, i) + t.window)
  }

  ghost predicate PhaseMatches(t: Track) {
    var n := |t.attempts|;
    match t.phase
    case Active => n > 0 ==> !t.attempts[n - 1].state.Succeeded?
    case GivenUp => n > 0 && t.attempts[n - 1].state.TerminalFailure?
    case Done => n > 0 && t.attempts[n - 1].state.Succeeded?
  }

  ghost predicate ValidTrack(t: Track, clock: Time) {
    && (forall i | 0 <= i < |t.attempts| :: GoodAttempt(t, i, clock))
    && (forall k | 0 <= k < |t.retries| :: t.retries[k] <= clock)
    && (t.attempts != [] ==> t.first <= clock)
    && Terminals(t.attempts, |t.attempts|) == |t.retries| + (if t.phase.GivenUp? then 1 else 0)
    && PhaseMatches(t)
  }

  // -- What the workers and the Operator do to a track -------------------------------

  lemma {:induction false} TerminalsFrame(a: seq<Attempt>, b: seq<Attempt>, i: nat)
    requires i <= |a| && i <= |b| && a[..i] == b[..i]
    ensures Terminals(a, i) == Terminals(b, i)
  {
    if i > 0 {
      assert a[..i - 1] == a[..i][..i - 1] == b[..i][..i - 1] == b[..i - 1];
      assert a[i - 1] == a[..i][i - 1] == b[..i][i - 1] == b[i - 1];
      TerminalsFrame(a, b, i - 1);
    }
  }

  lemma TerminalsFrameAll(a: seq<Attempt>, b: seq<Attempt>, n: nat)
    requires n <= |a| && n <= |b| && a[..n] == b[..n]
    ensures forall i | 0 <= i <= n :: Terminals(a, i) == Terminals(b, i)
    ensures forall i | 0 <= i < n :: a[i] == b[i]
  {
    forall i | 0 <= i <= n ensures Terminals(a, i) == Terminals(b, i) {
      assert a[..i] == a[..n][..i] == b[..n][..i] == b[..i];
      TerminalsFrame(a, b, i);
    }
    forall i | 0 <= i < n ensures a[i] == b[i] {
      assert a[i] == a[..n][i] == b[..n][i] == b[i];
    }
  }

  lemma ClockAdvances(t: Track, clock: Time, later: Time)
    requires ValidTrack(t, clock) && clock <= later
    ensures ValidTrack(t, later)
  {
    forall i | 0 <= i < |t.attempts| ensures GoodAttempt(t, i, later) {
      assert GoodAttempt(t, i, clock);
    }
  }

  /** The work is due at `startedAt`: nothing is in flight and the last wait is over or waived. */
  ghost predicate Ready(t: Track, startedAt: Time) {
    var n := |t.attempts|;
    && t.phase.Active?
    && (n > 0 ==> !t.attempts[n - 1].Open()
                  && t.attempts[n - 1].FinishedAt() + Wait(t.attempts[n - 1], n) <= startedAt)
  }

  lemma Opened(t: Track, a: Attempt, first: Time, clock: Time)
    requires ValidTrack(t, clock) && Ready(t, a.startedAt) && a.Open() && a.startedAt <= clock
    requires first <= clock && (t.attempts != [] ==> first == t.first)
    ensures ValidTrack(t.(attempts := t.attempts + [a], first := first), clock)
  {
    var n := |t.attempts|;
    var u := t.(attempts := t.attempts + [a], first := first);
    assert u.attempts[..n] == t.attempts[..n];
    TerminalsFrameAll(t.attempts, u.attempts, n);
    forall i | 0 <= i < n + 1 ensures GoodAttempt(u, i, clock) {
      if i < n { assert GoodAttempt(t, i, clock); }
    }
  }

  function PhaseAfter(state: AttemptState): Phase {
    if state.Succeeded? then Done else if state.TerminalFailure? then GivenUp else Active
  }

  lemma Closed(t: Track, state: AttemptState, clock: Time)
    requires ValidTrack(t, clock) && t.phase.Active? && t.attempts != []
    requires t.attempts[|t.attempts| - 1].Open() && !state.InProgress? && state.at == clock
    requires Terminals(t.attempts, |t.attempts| - 1) <= |t.retries|
    requires state.RetryableFailure? ==> clock < AnchorAt(t, |t.attempts| - 1) + t.window
    ensures var n := |t.attempts|;
            ValidTrack(t.(attempts := t.attempts[n - 1 := t.attempts[n - 1].(state := state)],
                     phase := PhaseAfter(state)), clock)
  {
    var n := |t.attempts|;
    var b := t.attempts[n - 1 := t.attempts[n - 1].(state := state)];
    var u := t.(attempts := b, phase := PhaseAfter(state));
    assert b[..n - 1] == t.attempts[..n - 1];
    TerminalsFrameAll(t.attempts, b, n - 1);
    forall i | 0 <= i < n ensures GoodAttempt(u, i, clock) {
      assert GoodAttempt(t, i, clock);
    }
  }

  lemma Reopened(t: Track, at: Time, clock: Time)
    requires ValidTrack(t, clock) && t.phase.GivenUp? && at <= clock
    ensures ValidTrack(t.(retries := t.retries + [at], phase := Active), clock)
  {
    var u := t.(retries := t.retries + [at], phase := Active);
    forall i | 0 <= i < |u.attempts| ensures GoodAttempt(u, i, clock) {
      assert GoodAttempt(t, i, clock);
      TerminalsMonotone(t.attempts, i, |t.attempts| - 1);
    }
  }

  lemma {:induction false} TerminalsMonotone(a: seq<Attempt>, i: nat, j: nat)
    requires i <= j <= |a|
    ensures Terminals(a, i) <= Terminals(a, j)
    decreases j
  {
    if i < j {
      TerminalsMonotone(a, i, j - 1);
    }
  }

  lemma WindowsOpened(t: Track, clock: Time)
    requires ValidTrack(t, clock) && t.attempts != []
    ensures Terminals(t.attempts, |t.attempts| - 1) <= |t.retries|
    ensures t.phase.Active? && !t.attempts[|t.attempts| - 1].state.TerminalFailure? ==>
              Terminals(t.attempts, |t.attempts| - 1) == |t.retries|
  {
    assert GoodAttempt(t, |t.attempts| - 1, clock);
  }

  // -- What a valid track promises ---------------------------------------------------

  /** Backoff spreads the attempts of a window: attempt `i` cannot end before its position's offset. */
  lemma {:induction false} Spread(t: Track, i: nat, clock: Time)
    requires ValidTrack(t, clock) && i < |t.attempts| && !t.attempts[i].Open()
    ensures Terminals(t.attempts, i) <= |t.retries|
    ensures AnchorAt(t, i) + Offset(Position(t.attempts, i)) <= t.attempts[i].FinishedAt()
    decreases i
  {
    assert GoodAttempt(t, i, clock);
    if Position(t.attempts, i) > 0 {
      Spread(t, i - 1, clock);
      PositionBound(t.attempts, i);
      BackoffMonotone(Position(t.attempts, i), i);
    }
  }

  lemma {:induction false} PositionBound(a: seq<Attempt>, i: nat)
    requires i < |a|
    ensures Position(a, i) <= i
  {
    if Position(a, i) > 0 {
      PositionBound(a, i - 1);
    }
  }

  /**
   A retryable failure recorded by a worker is among the first eight attempts of
   its window; five in the 2 h floor.
   */
  lemma RetryBudget(t: Track, i: nat, clock: Time)
    requires ValidTrack(t, clock) && t.window <= WINDOW_CAP
    requires i < |t.attempts| && t.attempts[i].state.RetryableFailure?
    ensures Position(t.attempts, i) <= 7
    ensures t.window <= WINDOW_FLOOR ==> Position(t.attempts, i) <= 4
  {
    Spread(t, i, clock);
    assert GoodAttempt(t, i, clock);
    OffsetBudget(Position(t.attempts, i));
  }

  /** Retryable failures recorded by workers among the first `n` attempts, in window `k`. */
  function RetriesIn(a: seq<Attempt>, k: nat, n: nat): nat
    requires n <= |a|
  {
    if n == 0 then 0
    else RetriesIn(a, k, n - 1)
         + (if a[n - 1].state.RetryableFailure? && Terminals(a, n - 1) == k then 1 else 0)
  }

  lemma {:induction false} NoEarlierWindow(a: seq<Attempt>, k: nat, n: nat)
    requires n <= |a| && Terminals(a, n) < k
    ensures RetriesIn(a, k, n) == 0
  {
    if n > 0 {
      NoEarlierWindow(a, k, n - 1);
    }
  }

  lemma {:induction false} RetriesByPosition(a: seq<Attempt>, k: nat, n: nat)
    requires n < |a| && Terminals(a, n) == k
    ensures RetriesIn(a, k, n) <= Position(a, n)
    decreases n
  {
    if n > 0 {
      if a[n - 1].state.TerminalFailure? {
        NoEarlierWindow(a, k, n - 1);
      } else {
        RetriesByPosition(a, k, n - 1);
      }
    }
  }

  /** In every window workers record at most eight retryable failures; at most five in the 2 h floor. */
  lemma {:induction false} RetriesPerWindow(t: Track, k: nat, n: nat, clock: Time)
    requires ValidTrack(t, clock) && t.window <= WINDOW_CAP && n <= |t.attempts|
    ensures RetriesIn(t.attempts, k, n) <= 8
    ensures t.window <= WINDOW_FLOOR ==> RetriesIn(t.attempts, k, n) <= 5
    decreases n
  {
    if n > 0 {
      RetriesPerWindow(t, k, n - 1, clock);
      if t.attempts[n - 1].state.RetryableFailure? && Terminals(t.attempts, n - 1) == k {
        RetryBudget(t, n - 1, clock);
        RetriesByPosition(t.attempts, k, n - 1);
      }
    }
  }

  /** Without terminal failures and abandoned attempts there are at most nine attempts. */
  lemma AtMostNine(t: Track, clock: Time)
    requires ValidTrack(t, clock) && t.window <= WINDOW_CAP && t.retries == []
    requires forall i | 0 <= i < |t.attempts| :: !t.attempts[i].state.Abandoned?
    ensures |t.attempts| <= 9
    ensures t.attempts != [] && t.phase.Active? && !t.attempts[|t.attempts| - 1].Open() ==> |t.attempts| <= 8
  {
    if |t.attempts| >= 2 {
      var last := if t.phase.Active? && !t.attempts[|t.attempts| - 1].Open()
                  then |t.attempts| - 1 else |t.attempts| - 2;
      TerminalsMonotone(t.attempts, |t.attempts| - 1, |t.attempts|);
      assert GoodAttempt(t, |t.attempts| - 1, clock);
      NoTerminals(t.attempts, |t.attempts| - 1);
      if last == |t.attempts| - 1 { NoTerminals(t.attempts, |t.attempts|); }
      assert t.attempts[last].state.RetryableFailure?;
      RetryBudget(t, last, clock);
      PositionIsIndex(t.attempts, last);
    }
  }

  lemma {:induction false} NoTerminals(a: seq<Attempt>, n: nat)
    requires n <= |a| && Terminals(a, n) == 0
    ensures forall i | 0 <= i < n :: !a[i].state.TerminalFailure?
  {
    if n > 0 {
      NoTerminals(a, n - 1);
    }
  }

  lemma {:induction false} PositionIsIndex(a: seq<Attempt>, i: nat)
    requires i < |a| && forall j | 0 <= j < i :: !a[j].state.TerminalFailure?
    ensures Position(a, i) == i
  {
    if i > 0 {
      PositionIsIndex(a, i - 1);
    }
  }

  // -- The whole history -----------------------------------------------------------------

  /** How many of the first `n` attempts recovery closed. */
  function Abandonments(a: seq<Attempt>, n: nat): nat
    requires n <= |a|
  {
    if n == 0 then 0
    else Abandonments(a, n - 1) + (if a[n - 1].state.Abandoned? then 1 else 0)
  }

  /** The retryable failures one window has room for. */
  function PerWindow(t: Track): nat {
    if t.window <= WINDOW_FLOOR then 5 else 8
  }

  /** Attempts that ended without success fill the windows closed so far, the one at hand, or were abandoned. */
  lemma {:induction false} WindowsFill(t: Track, n: nat, clock: Time)
    requires ValidTrack(t, clock) && t.window <= WINDOW_CAP && n <= |t.attempts|
    requires forall i | 0 <= i < n :: !t.attempts[i].Open() && !t.attempts[i].state.Succeeded?
    ensures var k := Terminals(t.attempts, n);
            n <= PerWindow(t) * k + RetriesIn(t.attempts, k, n) + k + Abandonments(t.attempts, n)
    decreases n
  {
    if n > 0 {
      var k := Terminals(t.attempts, n - 1);
      WindowsFill(t, n - 1, clock);
      if t.attempts[n - 1].state.TerminalFailure? {
        RetriesPerWindow(t, k, n - 1, clock);
        assert PerWindow(t) * (k + 1) == PerWindow(t) * k + PerWindow(t);
      }
    }
  }

  /** However often the Operator retries: one more than the budget for each window, besides abandoned attempts. */
  lemma HistoryIsBounded(t: Track, clock: Time)
    requires ValidTrack(t, clock) && t.window <= WINDOW_CAP
    ensures |t.attempts| <= (PerWindow(t) + 1) * (1 + |t.retries|) + Abandonments(t.attempts, |t.attempts|)
  {
    var a, n := t.attempts, |t.attempts|;
    var k := |t.retries|;
    if n > 0 {
      forall i | 0 <= i < n - 1 ensures !a[i].Open() && !a[i].state.Succeeded? {
        assert GoodAttempt(t, i + 1, clock);
      }
      assert GoodAttempt(t, n - 1, clock);
      WindowsFill(t, n - 1, clock);
      RetriesPerWindow(t, Terminals(a, n - 1), n - 1, clock);
      WindowsGrow(PerWindow(t), Terminals(a, n - 1), k);
    }
  }

  lemma WindowsGrow(b: nat, j: nat, k: nat)
    requires j <= k
    ensures b * j + b + j + 1 <= (b + 1) * (1 + k)
  {
    assert (b + 1) * (1 + k) == b * k + b + k + 1;
    assert b * (k - j) >= 0;
  }

  // -- Conservation ------------------------------------------------------------------

  function Successes(a: seq<Attempt>): nat {
    if a == [] then 0
    else Successes(a[..|a| - 1]) + (if a[|a| - 1].state.Succeeded? then 1 else 0)
  }

  lemma {:induction false} NoSuccess(a: seq<Attempt>)
    requires forall i | 0 <= i < |a| :: !a[i].state.Succeeded?
    ensures Successes(a) == 0
  {
    if a != [] {
      NoSuccess(a[..|a| - 1]);
    }
  }

  /** Exactly one attempt succeeded if the work is done, none otherwise. */
  lemma SuccessIsConserved(t: Track, clock: Time)
    requires ValidTrack(t, clock)
    ensures Successes(t.attempts) == if t.phase.Done? then 1 else 0
  {
    var n := |t.attempts|;
    if n > 0 {
      forall i | 0 <= i < n - 1 ensures !t.attempts[i].state.Succeeded? {
        assert GoodAttempt(t, i + 1, clock);
      }
      NoSuccess(t.attempts[..n - 1]);
    }
  }
}
