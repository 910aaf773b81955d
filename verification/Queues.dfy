/** Which rows each worker's scan selects, and which of them a tick may act on. */
module Queues {
  import opened Domain
  import opened Ledger
  import opened Retry
  import opened Timestamp

  predicate IsReceived(w: World, r: Id) {
    r in w && w[r].rec.status == Received
  }

  /** `ORDER BY received_at LIMIT 1` over the `received` rows, comparing text. */
  ghost predicate OldestReceived(w: World, r: Id) {
    IsReceived(w, r) && forall q | IsReceived(w, q) :: !TextBefore(w[q].rec.receivedAt, w[r].rec.receivedAt)
  }

  predicate RetryCandidate(c: Case) {
    c.rec.status == Transcribing && c.attempts != [] && !HasOpen(c.attempts)
  }

  predicate RetryDue(c: Case, now: Time)
    requires RetryCandidate(c)
  {
    var last := c.attempts[|c.attempts| - 1];
    var manual := c.rec.retryWindowStartedAt.Some? && c.rec.retryWindowStartedAt.value > last.FinishedAt();
    manual || now >= NextRetryAt(last.FinishedAt(), last.number)
  }

  predicate DueForRetry(w: World, r: Id, now: Time) {
    r in w && RetryCandidate(w[r]) && RetryDue(w[r], now)
  }

  ghost predicate OldestDueRetry(w: World, r: Id, now: Time) {
    && DueForRetry(w, r, now)
    && forall q | DueForRetry(w, q, now) :: !TextBefore(w[q].rec.receivedAt, w[r].rec.receivedAt)
  }

  predicate DeliveryCandidate(c: Case) {
    c.delivery.Some? && c.delivery.value.status == InDelivery && !HasOpen(c.tries)
  }

  predicate DeliveryDue(c: Case, now: Time)
    requires DeliveryCandidate(c)
  {
    var d := c.delivery.value;
    if c.tries == [] then d.retryWindowStartedAt.Some? || now >= d.selectedAt
    else
      var last := c.tries[|c.tries| - 1];
      || (d.retryWindowStartedAt.Some? && d.retryWindowStartedAt.value > last.FinishedAt())
      || now >= NextRetryAt(last.FinishedAt(), last.number)
  }

  predicate DueForDelivery(w: World, r: Id, now: Time) {
    r in w && DeliveryCandidate(w[r]) && DeliveryDue(w[r], now)
  }

  ghost predicate OldestDueDelivery(w: World, r: Id, now: Time) {
    && DueForDelivery(w, r, now)
    && forall q | DueForDelivery(w, q, now) ::
         !TextBefore(w[q].delivery.value.selectedAt, w[r].delivery.value.selectedAt)
  }

  /** `delivery_candidates` fails as a whole when one candidate's Transcript is missing. */
  ghost predicate DeliveryScanWorks(w: World) {
    forall r | r in w && DeliveryCandidate(w[r]) :: w[r].transcript.Some?
  }

  predicate IsRouting(w: World, r: Id) {
    r in w && w[r].rec.status == Routing
  }

  ghost predicate OldestRouting(w: World, r: Id) {
    IsRouting(w, r) && forall q | IsRouting(w, q) :: !TextBefore(w[q].rec.receivedAt, w[r].rec.receivedAt)
  }

  /** Whatever text does to two times of one second, nothing taken is a second or more younger than what waits. */
  lemma OldestWithinASecond(w: World, r: Id, q: Id, now: Time)
    requires q in w
    ensures OldestReceived(w, r) && w[q].rec.status == Received ==>
              r in w && w[r].rec.status == Received && w[r].rec.receivedAt < w[q].rec.receivedAt + SECOND
    ensures OldestRouting(w, r) && w[q].rec.status == Routing ==>
              r in w && w[r].rec.status == Routing && w[r].rec.receivedAt < w[q].rec.receivedAt + SECOND
    ensures OldestDueRetry(w, r, now) && DueForRetry(w, q, now) ==>
              DueForRetry(w, r, now) && w[r].rec.receivedAt < w[q].rec.receivedAt + SECOND
    ensures OldestDueDelivery(w, r, now) && DueForDelivery(w, q, now) ==>
              && DueForDelivery(w, r, now)
              && w[r].delivery.value.selectedAt < w[q].delivery.value.selectedAt + SECOND
  {
    if r in w {
      var (a, b) := (w[q].rec.receivedAt, w[r].rec.receivedAt);
      if a + SECOND <= b {
        TextBeforeAcrossSeconds(a, b);
        assert IsReceived(w, q) <==> w[q].rec.status == Received;
        assert IsRouting(w, q) <==> w[q].rec.status == Routing;
      }
      if w[q].delivery.Some? && w[r].delivery.Some? {
        var (c, d) := (w[q].delivery.value.selectedAt, w[r].delivery.value.selectedAt);
        if c + SECOND <= d {
          TextBeforeAcrossSeconds(c, d);
        }
      }
    }
  }
}
