/** webhooks.Recorder: what one answered attempt does to a delivery record. */
module Attempts {
  import opened Domain

  const MAX_ATTEMPTS: int := 3

  datatype Response = Response(statusCode: int, body: seq<bv8>, deliveredAt: Time)

  /** Two's complement wrap-around of an int64. */
  function Wrap64(x: int): (w: int)
    ensures MIN_DURATION <= w <= MAX_DURATION
    ensures MIN_DURATION <= x <= MAX_DURATION ==> w == x
  {
    (x + 0x8000_0000_0000_0000) % 0x1_0000_0000_0000_0000 - 0x8000_0000_0000_0000
  }

  /** The delay after n - 1 wrapping doublings of a minute. */
  function Backoff(n: int): int {
    if n <= 1 then MINUTE else Wrap64(2 * Backoff(n - 1))
  }

  function Pow2(n: nat): (p: nat)
    ensures p >= 1
  {
    if n == 0 then 1 else 2 * Pow2(n - 1)
  }

  method DefaultBackoff(attempt: int) returns (delay: int)
    ensures delay == Backoff(attempt)
  {
    var n := if attempt < 1 then 1 else attempt;
    delay := MINUTE;
    for i := 1 to n
      invariant delay == Backoff(i)
    {
      delay := Wrap64(delay * 2);
    }
  }

  lemma {:induction false} Pow2Monotone(a: nat, b: nat)
    requires a <= b
    ensures Pow2(a) <= Pow2(b)
  {
    if a == b {
    } else {
      Pow2Monotone(a, b - 1);
    }
  }

  lemma {:induction false} Pow2Plus7(n: nat)
    ensures Pow2(n + 7) == 128 * Pow2(n)
  {
    assert Pow2(n + 2) == 4 * Pow2(n);
    assert Pow2(n + 4) == 4 * Pow2(n + 2);
    assert Pow2(n + 6) == 4 * Pow2(n + 4);
  }

  lemma Pow2Of28()
    ensures Pow2(28) == 0x1000_0000 && Pow2(27) == 0x800_0000
  {
    Pow2Plus7(0);
    Pow2Plus7(7);
    Pow2Plus7(14);
    Pow2Plus7(21);
    assert Pow2(28) == 2 * Pow2(27);
  }

  lemma {:induction false} BackoffUpTo28(n: int)
    requires 1 <= n <= 28
    ensures Backoff(n) == MINUTE * Pow2(n - 1)
  {
    if n > 1 {
      BackoffUpTo28(n - 1);
      Pow2Monotone(n - 1, 27);
      Pow2Of28();
    }
  }

  /** The delay is 2^(n-1) minutes exactly as long as that fits a Duration, which is up to n == 28. */
  lemma BackoffExact(n: int)
    requires n >= 1
    ensures Backoff(n) == MINUTE * Pow2(n - 1) <==> n <= 28
  {
    if n <= 28 {
      BackoffUpTo28(n);
    } else {
      Pow2Monotone(28, n - 1);
      Pow2Of28();
    }
  }

  predicate Accepted(statusCode: int) {
    200 <= statusCode < 300
  }

  function Recorded(d: Delivery, r: Response): Delivery {
    var n := d.attemptCount + 1;
    d.(attemptCount := n,
       responseCode := r.statusCode,
       responseBody := r.body,
       lastAttemptAt := r.deliveredAt,
       updatedAt := r.deliveredAt,
       status := if Accepted(r.statusCode) then Succeeded
                 else if n <= MAX_ATTEMPTS then Retrying else DeadLetter,
       nextAttemptAt := if !Accepted(r.statusCode) && n <= MAX_ATTEMPTS
                        then r.deliveredAt + Backoff(n) else ZERO_TIME)
  }

  /** What an answered attempt leaves of a delivery: only a 2xx answer succeeds, and three retries follow. */
  ghost predicate IsRecordOf(d: Delivery, r: Response, d': Delivery) {
    && d'.id == d.id && d'.organizationId == d.organizationId && d'.agentId == d.agentId && d'.eventId == d.eventId
    && d'.requestUrl == d.requestUrl && d'.requestPayload == d.requestPayload
    && d'.requestHeaders == d.requestHeaders && d'.createdAt == d.createdAt
    && d'.attemptCount == d.attemptCount + 1
    && d'.responseCode == r.statusCode && d'.responseBody == r.body
    && d'.lastAttemptAt == d'.updatedAt == r.deliveredAt
    && (200 <= r.statusCode <= 299 ==> d'.status == Succeeded && d'.nextAttemptAt == ZERO_TIME)
    && (!(200 <= r.statusCode <= 299) && d'.attemptCount <= 3 ==> d'.status == Retrying)
    && (!(200 <= r.statusCode <= 299) && 1 <= d'.attemptCount <= 3 ==>
          d'.nextAttemptAt == r.deliveredAt + 60_000_000_000 * Pow2(d'.attemptCount - 1))
    && (!(200 <= r.statusCode <= 299) && d'.attemptCount > 3 ==>
          d'.status == DeadLetter && d'.nextAttemptAt == ZERO_TIME)
  }

  lemma RecordedByField(d: Delivery, r: Response)
    ensures IsRecordOf(d, r, Recorded(d, r))
  {
    if 1 <= d.attemptCount + 1 <= 3 {
      BackoffExact(d.attemptCount + 1);
    }
  }
}
