/** The bounded-retry delivery of `internal/workflow`. */
module Workflow {
  import opened Wrappers

  /** What one POST to the consumer gives. */
  datatype Reply = NoReply | Status(code: int)

  datatype ForwardError = BadRequest | Cancelled | Rejected(code: int) | Exhausted(last: Reply)

  predicate Acknowledges(r: Reply) {
    r.Status? && 200 <= r.code < 300
  }

  /** Client errors that are retried all the same: 401, 403, 408 and 429. */
  predicate RetryableClientError(code: int) {
    code == 401 || code == 403 || code == 408 || code == 429
  }

  predicate IsPermanent(r: Reply) {
    r.Status? && 400 <= r.code < 500 && !RetryableClientError(r.code)
  }

  predicate Retries(r: Reply) {
    !Acknowledges(r) && !IsPermanent(r)
  }

  /** Neither acknowledged nor a fault of the content: no answer, anything outside 2xx and 4xx,
      or a fault of credentials (401, 403) or of the moment (408, 429). */
  predicate IsWorthRetrying(r: Reply) {
    r.NoReply? || (r.code / 100 != 2 && (r.code / 100 != 4 || r.code in {401, 403, 408, 429}))
  }

  /** The tries a configured count allows. */
  function Tries(attempts: int): nat {
    if attempts < 1 then 1 else attempts
  }

  /** `sent` POSTs were made to a consumer answering `reply`, all but the last of them
      worth retrying. */
  ghost predicate StoppedAfter(reply: nat -> Reply, sent: nat) {
    forall i :: 0 <= i < sent - 1 ==> Retries(reply(i))
  }

  /** The i-th try is reached and acknowledged: every earlier answer was worth retrying and
      the context was never done. */
  ghost predicate AcknowledgedAt(reply: nat -> Reply, done: nat -> bool, i: nat) {
    && Acknowledges(reply(i))
    && (forall k :: 0 <= k < i ==> Retries(reply(k)))
    && (forall k :: 0 < k <= i ==> !done(k))
  }

  /** `reply(i)` is the answer to the i-th try, and the context is done by the time the
      i-th backoff would end when `done(i)`. A delivery succeeds only on a 2xx, stops at
      the first answer not worth retrying, and otherwise uses up its tries. */
  method Forward(attempts: int, validUrl: bool, reply: nat -> Reply, done: nat -> bool)
    returns (r: Result<(), ForwardError>, sent: nat)
    ensures !validUrl ==> r == Err(BadRequest) && sent == 0
    ensures sent <= Tries(attempts) && StoppedAfter(reply, sent)
    ensures r.Ok? ==> sent > 0 && AcknowledgedAt(reply, done, sent - 1)
    ensures r.Ok? <==> validUrl && exists i :: 0 <= i < Tries(attempts) && AcknowledgedAt(reply, done, i)
    ensures r.Err? ==> forall i :: 0 <= i < sent ==> !Acknowledges(reply(i))
    ensures r.Err? && r.error.Rejected? ==>
      sent > 0 && IsPermanent(reply(sent - 1)) && reply(sent - 1) == Status(r.error.code)
    ensures r.Err? && r.error.Cancelled? ==> 0 < sent < Tries(attempts) && done(sent) && Retries(reply(sent - 1))
    ensures r.Err? && r.error.Exhausted? ==>
      sent == Tries(attempts) && r.error.last == reply(sent - 1) && Retries(reply(sent - 1))
    ensures r.Err? && r.error.BadRequest? ==> !validUrl
    ensures sent <= if attempts > 1 then attempts else 1
    ensures r.Ok? ==> reply(sent - 1).Status? && reply(sent - 1).code / 100 == 2
    ensures forall i :: 0 <= i < sent - 1 ==> IsWorthRetrying(reply(i))
    ensures r.Err? && sent > 0 ==> (r.error.Rejected? <==> !IsWorthRetrying(reply(sent - 1)))
  {
    var tries := Tries(attempts);
    var last := NoReply;
    sent := 0;
    for i := 0 to tries
      invariant sent == i && (i > 0 ==> last == reply(i - 1) && validUrl)
      invariant forall k :: 0 <= k < i ==> Retries(reply(k)) && !Acknowledges(reply(k))
      invariant forall k :: 0 < k < i ==> !done(k)
    {
      if i > 0 && done(i) {
        return Err(Cancelled), sent;
      }
      if !validUrl {
        return Err(BadRequest), sent;
      }
      var resp := reply(i);
      sent := sent + 1;
      if resp.NoReply? {
        last := resp;
        continue;
      }
      if 200 <= resp.code < 300 {
        assert AcknowledgedAt(reply, done, i);
        return Ok(()), sent;
      } else if RetryableClientError(resp.code) {
        last := resp;
      } else if 400 <= resp.code < 500 {
        return Err(Rejected(resp.code)), sent;
      } else {
        last := resp;
      }
    }
    return Err(Exhausted(last)), sent;
  }
}
