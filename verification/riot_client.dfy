/** The bounded retry policy of `riot_get` in ingest.py, over abstract
    replies. The network is the function `respond`: `respond(n)` is what the
    n-th request (counting from 0) gets back. Sleeping is recorded, not done. */
module RiotClient {
  import opened Common

  /** The `Retry-After` header of a 429 reply as `int(...)` sees it. */
  datatype RetryAfter = NoHeader | Seconds(n: int) | Unparsable

  /** A reply: a `RequestException` raised by `requests.get` itself
      (connection error, timeout), or a response whose body either decodes as
      JSON (`Some`) or makes `r.json()` raise (`None`). */
  datatype Reply<B> = Transport | Response(status: int, retryAfter: RetryAfter, body: Option<B>)

  /** What `riot_get` raises. `NoAttempts` is the `raise None` of a loop that
      ran zero times (a `TypeError`). */
  datatype FetchError = HttpStatus(status: int) | Network | InvalidJson | BadRetryAfter | NoAttempts

  /** The variable `last`: nothing yet, the last response kept, or the last
      caught exception. */
  datatype Last = NoneYet | LastResponse(status: int) | LastException(error: FetchError)

  /** The outcome of one attempt. */
  datatype Step<B> = Done(body: B) | Retry(sleep: int, last: Last) | Raise(error: FetchError)

  function Pow2(n: nat): (r: nat)
    ensures r >= 1
  {
    if n == 0 then 1 else 2 * Pow2(n - 1)
  }

  /** `min(2 ** (attempt + 1), 30)`: 2, 4, 8, 16, then 30 for ever. */
  function Backoff(attempt: nat): (s: int)
    ensures 2 <= s <= 30
    ensures attempt <= 3 ==> s == Pow2(attempt + 1)
    ensures attempt >= 4 ==> s == 30
  {
    Pow2Grows(attempt);
    Min(Pow2(attempt + 1), 30)
  }

  lemma Pow2Grows(n: nat)
    ensures Pow2(n + 1) >= 2
    ensures n >= 4 ==> Pow2(n + 1) >= 32
  {
    if n >= 4 {
      Pow2Monotone(4, n);
    }
  }

  lemma {:induction false} Pow2Monotone(m: nat, n: nat)
    requires m <= n
    ensures Pow2(m + 1) <= Pow2(n + 1)
    decreases n - m
  {
    if m < n {
      Pow2Monotone(m, n - 1);
    }
  }

  predicate IsTransientStatus(status: int) {
    status == 500 || status == 502 || status == 503 || status == 504
  }

  /** `raise_for_status` raises for client and server errors. */
  predicate IsErrorStatus(status: int) {
    400 <= status < 600
  }

  /** One attempt of the loop body, in the order the source tests things:
      a transport error, 429, the transient 5xx codes, `raise_for_status`,
      then `r.json()`. Every caught `RequestException` (the transport error,
      the `HTTPError` of `raise_for_status`, a JSON decode error) is retried
      with backoff; a bad `Retry-After` makes `int()` or `time.sleep` raise
      `ValueError`, which is not caught. */
  function Classify<B>(attempt: nat, reply: Reply<B>): (step: Step<B>)
    // only a non-error, non-429 reply with a JSON body is ever returned
    ensures step.Done? ==>
      reply.Response? && !IsErrorStatus(reply.status) && reply.status != 429 && reply.body == Some(step.body)
    // apart from a 429, a retry waits the backoff, so never more than 30 s
    ensures step.Retry? && (reply.Transport? || reply.status != 429) ==> step.sleep == Backoff(attempt) <= 30
    // a 429 waits what Retry-After says, 2 s without the header, and keeps the response
    ensures reply.Response? && reply.status == 429 && reply.retryAfter == NoHeader ==> step == Retry(2, LastResponse(429))
    ensures reply.Response? && reply.status == 429 && reply.retryAfter.Seconds? && reply.retryAfter.n >= 0 ==>
      step == Retry(reply.retryAfter.n, LastResponse(429))
    // a non-429 client error is not fail-fast
    ensures reply.Response? && 400 <= reply.status < 500 && reply.status != 429 ==>
      step == Retry(Backoff(attempt), LastException(HttpStatus(reply.status)))
    // only a malformed Retry-After escapes the loop early
    ensures step.Raise? ==> step.error == BadRetryAfter && reply.Response? && reply.status == 429
  {
    match reply
    case Transport => Retry(Backoff(attempt), LastException(Network))
    case Response(status, retryAfter, body) =>
      if status == 429 then
        match retryAfter
        case NoHeader => Retry(2, LastResponse(429))
        case Seconds(n) => if n >= 0 then Retry(n, LastResponse(429)) else Raise(BadRetryAfter)
        case Unparsable => Raise(BadRetryAfter)
      else if IsTransientStatus(status) then Retry(Backoff(attempt), LastResponse(status))
      else if IsErrorStatus(status) then Retry(Backoff(attempt), LastException(HttpStatus(status)))
      else if body.None? then Retry(Backoff(attempt), LastException(InvalidJson))
      else Done(body.value)
  }

  /** After the loop: a kept response is re-raised by `raise_for_status`
      (it is a 429 or a transient 5xx, so that always raises), a kept
      exception is raised as is, and `raise None` fails. */
  function Final(last: Last): FetchError {
    match last
    case NoneYet => NoAttempts
    case LastResponse(status) => HttpStatus(status)
    case LastException(e) => e
  }

  /** The error raised once all `maxRetries` attempts asked for a retry. */
  function Exhausted<B>(respond: nat -> Reply<B>, maxRetries: nat): FetchError {
    if maxRetries == 0 then NoAttempts
    else
      var step := Classify(maxRetries - 1, respond(maxRetries - 1));
      if step.Retry? then Final(step.last) else NoAttempts
  }

  method RiotGet<B>(respond: nat -> Reply<B>, maxRetries: nat)
      returns (result: Result<B, FetchError>, requests: nat, sleeps: seq<int>)
    // never more than max_retries requests
    ensures requests <= maxRetries
    // every attempt but a final returning one asked for a retry, and slept what it asked
    ensures |sleeps| <= requests <= |sleeps| + 1
    ensures forall a :: 0 <= a < |sleeps| ==>
      Classify(a, respond(a)).Retry? && sleeps[a] == Classify(a, respond(a)).sleep
    // an attempt that does not retry ends the call with its body or its error
    ensures requests == |sleeps| + 1 ==>
      var step := Classify(|sleeps|, respond(|sleeps|));
      (step.Done? && result == Success(step.body)) || (step.Raise? && result == Failure(step.error))
    // running out of attempts always raises
    ensures requests == |sleeps| ==> requests == maxRetries && result == Failure(Exhausted(respond, maxRetries))
    // an upstream that asks for a retry every time gets exactly max_retries requests
    ensures (forall a :: 0 <= a < maxRetries ==> Classify(a, respond(a)).Retry?) ==>
      requests == maxRetries && result == Failure(Exhausted(respond, maxRetries))
  {
    var last := NoneYet;
    requests, sleeps := 0, [];
    var attempt := 0;
    while attempt < maxRetries
      invariant attempt <= maxRetries && requests == attempt == |sleeps|
      invariant forall a :: 0 <= a < |sleeps| ==>
        Classify(a, respond(a)).Retry? && sleeps[a] == Classify(a, respond(a)).sleep
      invariant attempt == 0 ==> last == NoneYet
      invariant attempt > 0 ==> last == Classify(attempt - 1, respond(attempt - 1)).last
    {
      var reply := respond(attempt);
      requests := requests + 1;
      var sleep := 0;
      match reply {
        case Transport =>
          last := LastException(Network);
          sleep := Backoff(attempt);
        case Response(status, retryAfter, body) =>
          if status == 429 {
            match retryAfter {
              case NoHeader =>
                sleep := 2;
              case Seconds(n) =>
                if n < 0 {
                  return Failure(BadRetryAfter), requests, sleeps;
                }
                sleep := n;
              case Unparsable =>
                return Failure(BadRetryAfter), requests, sleeps;
            }
            last := LastResponse(status);
          } else if IsTransientStatus(status) {
            last := LastResponse(status);
            sleep := Backoff(attempt);
          } else if IsErrorStatus(status) {
            last := LastException(HttpStatus(status));
            sleep := Backoff(attempt);
          } else if body.None? {
            last := LastException(InvalidJson);
            sleep := Backoff(attempt);
          } else {
            return Success(body.value), requests, sleeps;
          }
      }
      sleeps := sleeps + [sleep];
      attempt := attempt + 1;
    }
    result := Failure(Final(last));
  }

  /** An upstream that always answers 503 gets exactly `maxRetries` requests
      and then an HTTP 503 error (or the `raise None` failure when no attempt
      is allowed). */
  lemma AlwaysUnavailable<B>(respond: nat -> Reply<B>, maxRetries: nat, a: nat)
    requires forall n :: respond(n).Response? && respond(n).status == 503
    requires a < maxRetries
    ensures Classify(a, respond(a)) == Retry(Backoff(a), LastResponse(503))
    ensures Exhausted(respond, maxRetries) == HttpStatus(503)
  {
    assert respond(maxRetries - 1).status == 503;
  }
}
