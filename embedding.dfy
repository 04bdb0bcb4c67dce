/** Embedding generation with retry, identical in the SQL and the Cosmos DB variants.

    The embedding provider is a function from a request and the number of calls already made
    for it to what that call does: return embeddings, throw a client error carrying an HTTP
    status, or throw anything else.  The waits between attempts appear as `Delay` events in a
    trace, next to the `Call` events, so that calls and delays can be counted and ordered. */
module EmbeddingRetry {
  import opened Wrappers

  const MaxRetryCount: nat := 100
  const RetryDelayMs: nat := 10 * 1000
  const TooManyRequests: int := 429
  const Unauthorized: int := 401
  const DefaultDimensions: int := 1536

  /** An embedding vector, kept opaque. */
  datatype Embedding = Embedding(vector: seq<real>)

  /** The texts to embed and the requested number of dimensions. */
  datatype Request = Request(texts: seq<string>, dimensions: int)

  /** What one provider call does. */
  datatype Outcome = Ok(embeddings: seq<Embedding>) | ClientError(status: int) | OtherError

  type Provider = (Request, nat) -> Outcome

  datatype Failure =
    | NonRetryable(status: int)    // a client error with any other status
    | MaxRetryAttemptsReached      // the ceiling check inside the loop
    | RetriesExhausted             // the failure after the loop
    | Unhandled                    // an exception that is not a client error, passed on as is

  datatype EmbedResult = Embedded(embeddings: seq<Embedding>) | Failed(failure: Failure)

  datatype Event = Call(request: Request) | Delay(ms: nat)

  datatype Run = Run(result: EmbedResult, trace: seq<Event>)

  /** Rate limiting (429) and unauthorised (401) client errors are retried. */
  predicate IsTransient(o: Outcome)
  {
    o.ClientError? && (o.status == TooManyRequests || o.status == Unauthorized)
  }

  /** The first attempt, from `from` on and below the ceiling, that is not transient. */
  function FirstSettled(provider: Provider, request: Request, from: nat): (k: Option<nat>)
    ensures k.Some? ==>
      && from <= k.value < MaxRetryCount
      && !IsTransient(provider(request, k.value))
      && forall i :: from <= i < k.value ==> IsTransient(provider(request, i))
    ensures k.None? ==> forall i :: from <= i < MaxRetryCount ==> IsTransient(provider(request, i))
    decreases MaxRetryCount - from
  {
    if from >= MaxRetryCount then None
    else if !IsTransient(provider(request, from)) then Some(from)
    else FirstSettled(provider, request, from + 1)
  }

  /** The result a non-transient outcome leads to. */
  function Settle(o: Outcome): EmbedResult
  {
    match o
    case Ok(embeddings) => Embedded(embeddings)
    case ClientError(status) => Failed(NonRetryable(status))
    case OtherError => Failed(Unhandled)
  }

  /** `k` failed attempts, each followed by the fixed delay. */
  function Cycles(request: Request, k: nat): seq<Event>
  {
    if k == 0 then [] else Cycles(request, k - 1) + [Call(request), Delay(RetryDelayMs)]
  }

  /** The run the retry policy prescribes: the first non-transient attempt below the ceiling
      settles the run, after one delay per earlier attempt; if there is none, the ceiling is
      reached after `MaxRetryCount` calls and as many delays. */
  function ExpectedRun(provider: Provider, request: Request): Run
  {
    match FirstSettled(provider, request, 0)
    case None => Run(Failed(RetriesExhausted), Cycles(request, MaxRetryCount))
    case Some(k) => Run(Settle(provider(request, k)), Cycles(request, k) + [Call(request)])
  }

  function CallCount(trace: seq<Event>): nat
  {
    if trace == [] then 0
    else CallCount(trace[..|trace| - 1]) + (if trace[|trace| - 1].Call? then 1 else 0)
  }

  function DelayCount(trace: seq<Event>): nat
  {
    if trace == [] then 0
    else DelayCount(trace[..|trace| - 1]) + (if trace[|trace| - 1].Delay? then 1 else 0)
  }

  /** The retry loop.  The provider is called once per iteration; a transient failure is
      followed by the fixed delay and another iteration, anything else ends the loop, and the
      loop ends in failure after `MaxRetryCount` transient failures. */
  method GenerateEmbeddingsWithRetry(texts: seq<string>, dimensions: int, provider: Provider)
    returns (result: EmbedResult, trace: seq<Event>)
    ensures Run(result, trace) == ExpectedRun(provider, Request(texts, dimensions))
    ensures result != Failed(MaxRetryAttemptsReached)
  {
    var request := Request(texts, dimensions);
    var retryCount: nat := 0;
    trace := [];
    while retryCount < MaxRetryCount
      invariant retryCount <= MaxRetryCount
      invariant trace == Cycles(request, retryCount)
      invariant forall i :: 0 <= i < retryCount ==> IsTransient(provider(request, i))
    {
      // retryCount calls have been made so far
      trace := trace + [Call(request)];
      var outcome := provider(request, retryCount);
      match outcome {
        case Ok(embeddings) =>
          FirstSettledAt(provider, request, 0, retryCount);
          result := Embedded(embeddings);
          return;
        case ClientError(status) =>
          if status == TooManyRequests || status == Unauthorized {
            if retryCount >= MaxRetryCount {
              assert false;
              result := Failed(MaxRetryAttemptsReached);
              return;
            }
            retryCount := retryCount + 1;
            trace := trace + [Delay(RetryDelayMs)];
          } else {
            FirstSettledAt(provider, request, 0, retryCount);
            result := Failed(NonRetryable(status));
            return;
          }
        case OtherError =>
          FirstSettledAt(provider, request, 0, retryCount);
          result := Failed(Unhandled);
          return;
      }
    }
    FirstSettledNone(provider, request, 0);
    result := Failed(RetriesExhausted);
  }

  lemma {:induction false} FirstSettledAt(provider: Provider, request: Request, from: nat, k: nat)
    requires from <= k < MaxRetryCount
    requires forall i :: from <= i < k ==> IsTransient(provider(request, i))
    requires !IsTransient(provider(request, k))
    ensures FirstSettled(provider, request, from) == Some(k)
    decreases k - from
  {
    if from < k {
      FirstSettledAt(provider, request, from + 1, k);
    }
  }

  lemma {:induction false} FirstSettledNone(provider: Provider, request: Request, from: nat)
    requires forall i :: from <= i < MaxRetryCount ==> IsTransient(provider(request, i))
    ensures FirstSettled(provider, request, from) == None
    decreases MaxRetryCount - from
  {
    if from < MaxRetryCount {
      FirstSettledNone(provider, request, from + 1);
    }
  }

  lemma {:induction false} CountAppend(a: seq<Event>, b: seq<Event>)
    ensures CallCount(a + b) == CallCount(a) + CallCount(b)
    ensures DelayCount(a + b) == DelayCount(a) + DelayCount(b)
    decreases |b|
  {
    if b == [] {
      assert a + b == a;
    } else {
      var b' := b[..|b| - 1];
      assert (a + b)[..|a + b| - 1] == a + b';
      CountAppend(a, b');
    }
  }

  /** `k` failed attempts: `k` calls, all with the same request, and `k` delays of 10 s each. */
  lemma {:induction false} CyclesShape(request: Request, k: nat)
    ensures CallCount(Cycles(request, k)) == k && DelayCount(Cycles(request, k)) == k
    ensures forall e :: e in Cycles(request, k) ==> e == Call(request) || e == Delay(RetryDelayMs)
  {
    if k > 0 {
      CyclesShape(request, k - 1);
      var pair := [Call(request), Delay(RetryDelayMs)];
      CountAppend(Cycles(request, k - 1), pair);
      assert pair[..|pair| - 1] == [Call(request)];
      assert [Call(request)][..0] == [];
      assert CallCount([Call(request)]) == 1 && DelayCount([Call(request)]) == 0;
    }
  }

  /** Every run makes between 1 and `MaxRetryCount` calls, each with the batch's own request,
      waits only the fixed 10 s between them, and never ends in the in-loop ceiling failure. */
  lemma RunBounds(provider: Provider, request: Request)
    ensures var run := ExpectedRun(provider, request);
      && 1 <= CallCount(run.trace) <= MaxRetryCount
      && DelayCount(run.trace) <= CallCount(run.trace)
      && (forall e :: e in run.trace ==> e == Call(request) || e == Delay(RetryDelayMs))
      && run.result != Failed(MaxRetryAttemptsReached)
  {
    match FirstSettled(provider, request, 0)
    case None =>
      CyclesShape(request, MaxRetryCount);
    case Some(k) =>
      CyclesShape(request, k);
      CountAppend(Cycles(request, k), [Call(request)]);
      assert [Call(request)][..0] == [];
  }

  /** `k` transient failures below the ceiling and then a success: `k + 1` calls, `k` delays,
      and the provider's embeddings are returned unchanged. */
  lemma TransientsThenSuccess(provider: Provider, request: Request, k: nat, embeddings: seq<Embedding>)
    requires k < MaxRetryCount
    requires forall i :: 0 <= i < k ==> IsTransient(provider(request, i))
    requires provider(request, k) == Ok(embeddings)
    ensures var run := ExpectedRun(provider, request);
      && run.result == Embedded(embeddings)
      && CallCount(run.trace) == k + 1
      && DelayCount(run.trace) == k
  {
    FirstSettledAt(provider, request, 0, k);
    CyclesShape(request, k);
    CountAppend(Cycles(request, k), [Call(request)]);
    assert [Call(request)][..0] == [];
  }

  /** A failure that is not transient ends the run at once: a client error with a status
      other than 429 or 401 fails with that status, any other error fails as unhandled, and
      there is no delay after it and no further call. */
  lemma NonRetryableStops(provider: Provider, request: Request, k: nat)
    requires k < MaxRetryCount
    requires forall i :: 0 <= i < k ==> IsTransient(provider(request, i))
    requires !IsTransient(provider(request, k)) && !provider(request, k).Ok?
    ensures var run := ExpectedRun(provider, request);
      && run.result == Settle(provider(request, k))
      && (provider(request, k).ClientError? ==> run.result == Failed(NonRetryable(provider(request, k).status)))
      && (provider(request, k).OtherError? ==> run.result == Failed(Unhandled))
      && CallCount(run.trace) == k + 1
      && DelayCount(run.trace) == k
      && run.trace[|run.trace| - 1] == Call(request)
  {
    FirstSettledAt(provider, request, 0, k);
    CyclesShape(request, k);
    CountAppend(Cycles(request, k), [Call(request)]);
    assert [Call(request)][..0] == [];
  }

  /** When every attempt is transient the run ends in the failure after the loop, after
      `MaxRetryCount` calls and as many delays. */
  lemma AllTransientExhausts(provider: Provider, request: Request)
    requires forall i :: 0 <= i < MaxRetryCount ==> IsTransient(provider(request, i))
    ensures var run := ExpectedRun(provider, request);
      && run.result == Failed(RetriesExhausted)
      && CallCount(run.trace) == MaxRetryCount
      && DelayCount(run.trace) == MaxRetryCount
  {
    FirstSettledNone(provider, request, 0);
    CyclesShape(request, MaxRetryCount);
  }
}
