/** The two upstream reads of the token controller, `getSpotMeta` and
    `getTokenDetails`. Each goes through the rate limiter with weight 20; the
    request function posts to the info endpoint and throws when the response
    lacks the field it needs. The HTTP exchange itself is an input: for each
    attempt, its duration and the response body or the error. */
module DataClient {
  import opened JsValues
  import opened RateLimit

  const SpotMetaWeight: nat := 20
  const TokenDetailsWeight: nat := 20

  /** One entry of the listing, as the controller projects it. */
  datatype ListedToken = ListedToken(name: Json, tokenId: Json, index: int)

  /** `response.data.tokens` of the spotMeta call, projected to the three
      fields; `None` when the field is absent or falsy. */
  type SpotMetaBody = Option<seq<ListedToken>>

  /** `response.data` of the tokenDetails call; `None` when there is none. */
  type DetailsBody = Option<Document>

  /** The request function of `getSpotMeta`: a response without a token list
      becomes a thrown error that carries no HTTP status. */
  function CheckSpotMeta(c: CallResult<SpotMetaBody>): (r: CallResult<seq<ListedToken>>)
    ensures r.Returned? <==> c.Returned? && c.value.Some?
    ensures r.Returned? ==> r.value == c.value.value
    ensures c.Threw? ==> r == Threw(c.failure)
    ensures r.Threw? && c.Returned? ==> r.failure == OtherError
  {
    match c
    case Threw(f) => Threw(f)
    case Returned(body) =>
      match body
      case None => Threw(OtherError)
      case Some(tokens) => Returned(tokens)
  }

  /** The request function of `getTokenDetails`: a response whose `name` is
      falsy becomes a thrown error that carries no HTTP status. */
  function CheckDetails(c: CallResult<DetailsBody>): (r: CallResult<Document>)
    ensures r.Returned? <==> c.Returned? && c.value.Some? && Truthy(Get(c.value.value, Name))
    ensures r.Returned? ==> r.value == c.value.value
    ensures c.Threw? ==> r == Threw(c.failure)
    ensures r.Threw? && c.Returned? ==> r.failure == OtherError
  {
    match c
    case Threw(f) => Threw(f)
    case Returned(body) =>
      if body.Some? && Truthy(Get(body.value, Name)) then Returned(body.value) else Threw(OtherError)
  }

  /** The attempts of `getSpotMeta` as the limiter sees them. */
  function SpotMetaAttempts(responses: nat -> Attempt<SpotMetaBody>): nat -> Attempt<seq<ListedToken>> {
    (k: nat) => Attempt(responses(k).latency, CheckSpotMeta(responses(k).result))
  }

  /** The attempts of `getTokenDetails` as the limiter sees them. */
  function DetailsAttempts(responses: nat -> Attempt<DetailsBody>): nat -> Attempt<Document> {
    (k: nat) => Attempt(responses(k).latency, CheckDetails(responses(k).result))
  }

  /** `getSpotMeta()`. */
  method GetSpotMeta(limiter: RateLimiter, responses: nat -> Attempt<SpotMetaBody>) returns (r: Outcome<seq<ListedToken>>)
    modifies limiter
    ensures limiter.State() == Execute(old(limiter.State()), SpotMetaWeight, SpotMetaAttempts(responses), 0).state
    ensures r == Settled(SpotMetaAttempts(responses), 0)
  {
    ghost var s0 := limiter.State();
    r := limiter.Request(SpotMetaWeight, SpotMetaAttempts(responses), 0);
    ExecuteSettles(s0, SpotMetaWeight, SpotMetaAttempts(responses), 0);
  }

  /** `getTokenDetails(tokenId)`; the token id only selects the responses. */
  method GetTokenDetails(limiter: RateLimiter, responses: nat -> Attempt<DetailsBody>) returns (r: Outcome<Document>)
    modifies limiter
    ensures limiter.State() == Execute(old(limiter.State()), TokenDetailsWeight, DetailsAttempts(responses), 0).state
    ensures r == Settled(DetailsAttempts(responses), 0)
  {
    ghost var s0 := limiter.State();
    r := limiter.Request(TokenDetailsWeight, DetailsAttempts(responses), 0);
    ExecuteSettles(s0, TokenDetailsWeight, DetailsAttempts(responses), 0);
  }

  /** A details response without a name is not retried: the call fails after
      its one attempt, even though the weight was charged. */
  lemma {:induction false} NamelessDetailsFailAtOnce(responses: nat -> Attempt<DetailsBody>)
    requires responses(0).result.Returned?
    requires var body := responses(0).result.value; body.None? || !Truthy(Get(body.value, Name))
    ensures AttemptCount(DetailsAttempts(responses), 0) == 1
    ensures Settled(DetailsAttempts(responses), 0) == Err(OtherError)
  {
    var attempts := DetailsAttempts(responses);
    assert attempts(0).result == Threw(OtherError);
    assert !Retried(attempts, 0);
  }

  /** The details call succeeds exactly when some attempt returns a named
      body after a run of 429 rejections, and then it yields that body. */
  lemma {:induction false} DetailsSuccess(responses: nat -> Attempt<DetailsBody>)
    ensures var attempts := DetailsAttempts(responses);
      var last := AttemptCount(attempts, 0) - 1;
      Settled(attempts, 0).Ok? <==>
        responses(last).result.Returned? && responses(last).result.value.Some?
        && Truthy(Get(responses(last).result.value.value, Name))
    ensures Settled(DetailsAttempts(responses), 0).Ok? ==>
      var last := AttemptCount(DetailsAttempts(responses), 0) - 1;
      Settled(DetailsAttempts(responses), 0).value == responses(last).result.value.value
  {
    var attempts := DetailsAttempts(responses);
    var last := AttemptCount(attempts, 0) - 1;
    assert attempts(last).result == CheckDetails(responses(last).result);
  }
}
