/** Backoff, retry windows and the arithmetic that bounds the number of retries. */
module Retry {
  import opened Timestamp
  import opened Wrappers

  const I64_MAX: int := 0x7fff_ffff_ffff_ffff
  const DELIVERY_WINDOW: Time := 24 * HOUR
  const WINDOW_FLOOR: Time := 2 * HOUR
  const WINDOW_CAP: Time := 24 * HOUR

  /** Wait after the failure of attempt number `n`: 1m, 5m, 15m, 1h, then 6h. */
  function Backoff(n: int): Time {
    if n <= 1 then MINUTE
    else if n == 2 then 5 * MINUTE
    else if n == 3 then 15 * MINUTE
    else if n == 4 then HOUR
    else 6 * HOUR
  }

  function NextRetryAt(finishedAt: Time, number: int): Time {
    finishedAt + Backoff(number)
  }

  function SaturatingDouble(ms: int): int {
    if 2 * ms > I64_MAX then I64_MAX else 2 * ms
  }

  function Max(a: int, b: int): int { if a < b then b else a }

  function Min(a: int, b: int): int { if b < a then b else a }

  function TranscriptionWindow(durationMs: Option<int>): Time {
    var window := match durationMs
      case Some(ms) =>
        if ms > 0 then Max(WINDOW_FLOOR, SaturatingDouble(ms) * MILLISECOND) else WINDOW_FLOOR
      case None => WINDOW_FLOOR;
    Min(window, WINDOW_CAP)
  }

  function TranscriptionDeadline(anchor: Time, durationMs: Option<int>): Time {
    anchor + TranscriptionWindow(durationMs)
  }

  /** The saturating doubling can never be observed: the window is twice the audio, clamped. */
  lemma WindowIsClamped(durationMs: Option<int>)
    ensures 2 * HOUR <= TranscriptionWindow(durationMs) <= 24 * HOUR
    ensures durationMs.Some? && 2 * HOUR <= 2 * durationMs.value * MILLISECOND <= 24 * HOUR ==>
              TranscriptionWindow(durationMs) == 2 * durationMs.value * MILLISECOND
    ensures TranscriptionWindow(durationMs) == 2 * HOUR <==>
              durationMs.None? || 2 * durationMs.value * MILLISECOND <= 2 * HOUR
    ensures TranscriptionWindow(durationMs) == 24 * HOUR <==>
              durationMs.Some? && 2 * durationMs.value * MILLISECOND >= 24 * HOUR
  {
  }

  lemma BackoffMonotone(m: int, n: int)
    requires m <= n
    ensures MINUTE <= Backoff(m) <= Backoff(n)
  {
  }

  /** The least time between the anchor of a window and the end of its attempt number `j` (from 0). */
  function Offset(j: nat): Time {
    if j == 0 then 0 else Offset(j - 1) + Backoff(j)
  }

  lemma {:induction false} OffsetMonotone(i: nat, j: nat)
    requires i <= j
    ensures Offset(i) <= Offset(j)
    decreases j
  {
    if i < j {
      OffsetMonotone(i, j - 1);
    }
  }

  /** Which attempts of a window can still end before a deadline: the first 8 of 24 h, the first 5 of 2 h. */
  lemma OffsetBudget(j: nat)
    ensures Offset(j) < 24 * HOUR <==> j <= 7
    ensures Offset(j) < 2 * HOUR <==> j <= 4
  {
    assert Offset(2) == 6 * MINUTE;
    assert Offset(4) == 81 * MINUTE;
    assert Offset(5) == 441 * MINUTE;
    assert Offset(7) == 1161 * MINUTE;
    assert Offset(8) == 1521 * MINUTE;
    if j <= 4 { OffsetMonotone(j, 4); } else { OffsetMonotone(5, j); }
    if j <= 7 { OffsetMonotone(j, 7); } else { OffsetMonotone(8, j); }
  }
}
