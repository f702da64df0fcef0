/** The OkHttp interceptor that retries a request while the server answers 500
    (app/.../ServerErrorInterceptor.kt). The twenty-second pause between attempts is
    not modelled; the server is the function `codeOf`, giving the status of the
    response to the n-th call of `proceed`, counting from 0. */
module ServerErrorInterceptor {

  const InternalServerError := 500
  /** How many times a 500 is retried before it is passed on. */
  const MaxRetries := 30

  /** A response: which call of `proceed` produced it and its status code. */
  datatype Response = Response(call: nat, code: int)

  /** The number of retries the interceptor makes, defined independently of the loop:
      it stops at the first call whose status is not 500, or when the budget is spent. */
  function Retries(codeOf: nat -> int, from: nat): (r: nat)
    requires from <= MaxRetries
    ensures from <= r <= MaxRetries
    ensures forall k: nat :: from <= k < r ==> codeOf(k) == InternalServerError
    ensures r == MaxRetries || codeOf(r) != InternalServerError
    decreases MaxRetries - from
  {
    if codeOf(from) != InternalServerError || from == MaxRetries then from
    else Retries(codeOf, from + 1)
  }

  /** `intercept`. Returns the response passed on, the retry count, and the responses
      closed on the way, in the order they were closed. */
  method Intercept(codeOf: nat -> int) returns (response: Response, retryCount: nat, closed: seq<Response>)
    ensures retryCount == Retries(codeOf, 0)
    ensures retryCount <= MaxRetries
    ensures response == Response(retryCount, codeOf(retryCount))
    ensures forall k: nat :: k < retryCount ==> codeOf(k) == InternalServerError
    ensures response.code == InternalServerError ==> retryCount == MaxRetries
    ensures |closed| == retryCount
    ensures forall k :: 0 <= k < |closed| ==> closed[k] == Response(k, codeOf(k))
  {
    response := Response(0, codeOf(0));
    retryCount := 0;
    closed := [];
    while response.code == InternalServerError && retryCount < MaxRetries
      invariant retryCount <= MaxRetries
      invariant response == Response(retryCount, codeOf(retryCount))
      invariant Retries(codeOf, retryCount) == Retries(codeOf, 0)
      invariant |closed| == retryCount
      invariant forall k :: 0 <= k < |closed| ==> closed[k] == Response(k, codeOf(k))
      decreases MaxRetries - retryCount
    {
      closed := closed + [response];
      response := Response(retryCount + 1, codeOf(retryCount + 1));
      retryCount := retryCount + 1;
    }
  }

  /** A first answer other than 500 is passed on at once. */
  lemma NoRetryOnSuccess(codeOf: nat -> int)
    requires codeOf(0) != InternalServerError
    ensures Retries(codeOf, 0) == 0
  {
  }

  /** A server that answers 500 every time is asked 31 times, and its 500 is passed on. */
  lemma GivesUpAfterThirtyRetries(codeOf: nat -> int)
    requires forall k: nat :: k <= MaxRetries ==> codeOf(k) == InternalServerError
    ensures Retries(codeOf, 0) == MaxRetries
  {
  }
}
