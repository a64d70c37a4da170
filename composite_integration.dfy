/** product-composite-service, ProductCompositeIntegration: writes become events on
    three output channels; reads go over HTTP, with the product leg's HTTP errors
    translated and the recommendation and review legs degraded to what arrived. */
module CompositeIntegration {
  import opened Util
  import opened Api
  import opened Events
  import Decimal

  const ProductServiceUrl: string := "http://product"
  const RecommendationServiceUrl: string := "http://recommendation"
  const ReviewServiceUrl: string := "http://review"

  /** `HttpStatus.NOT_FOUND` and `HttpStatus.UNPROCESSABLE_ENTITY`. */
  const NOT_FOUND: int := 404
  const UNPROCESSABLE_ENTITY: int := 422

  // ----- request URLs -----

  /** The product URL up to the product id. */
  const ProductPath: string := ProductServiceUrl + "/product/"

  /** The `/product/{productId}?delay={delay}&faultPercent={faultPercent}` template
      expanded with the three numbers. */
  function ProductUrl(productId: int, delay: int, faultPercent: int): string
  {
    ProductPath + Decimal.IntToString(productId)
    + ("?delay=" + Decimal.IntToString(delay) + "&faultPercent=" + Decimal.IntToString(faultPercent))
  }

  /** The recommendation and review query URLs up to the product id. */
  const RecommendationsQuery: string := RecommendationServiceUrl + "/recommendation?productId="
  const ReviewsQuery: string := ReviewServiceUrl + "/review?productId="

  function RecommendationsUrl(productId: int): string
  {
    RecommendationsQuery + Decimal.IntToString(productId)
  }

  function ReviewsUrl(productId: int): string
  {
    ReviewsQuery + Decimal.IntToString(productId)
  }

  /** A number written between a fixed prefix and any suffix reads back from just
      after the prefix. */
  lemma InfixReadsBack(prefix: string, n: int, suffix: string)
    ensures var url := prefix + Decimal.IntToString(n) + suffix;
            var end := |prefix| + |Decimal.IntToString(n)|;
            end <= |url| && url[..|prefix|] == prefix && Decimal.ParseInt(url[|prefix|..end]) == n
  {
    var url := prefix + Decimal.IntToString(n) + suffix;
    assert url[|prefix|..|prefix| + |Decimal.IntToString(n)|] == Decimal.IntToString(n);
    Decimal.IntRoundTrip(n);
  }

  /** The product id sits right after `http://product/product/` and reads back as itself. */
  lemma ProductUrlCarriesId(productId: int, delay: int, faultPercent: int)
    ensures var url := ProductUrl(productId, delay, faultPercent);
            var end := |ProductPath| + |Decimal.IntToString(productId)|;
            end <= |url| && url[..|ProductPath|] == ProductPath
            && Decimal.ParseInt(url[|ProductPath|..end]) == productId
  {
    InfixReadsBack(ProductPath, productId,
                   "?delay=" + Decimal.IntToString(delay) + "&faultPercent=" + Decimal.IntToString(faultPercent));
  }

  /** Everything after `?productId=` reads back as the requested product id. */
  lemma RecommendationsUrlCarriesId(productId: int)
    ensures var url := RecommendationsUrl(productId);
            |RecommendationsQuery| <= |url| && url[..|RecommendationsQuery|] == RecommendationsQuery
            && Decimal.ParseInt(url[|RecommendationsQuery|..]) == productId
  {
    InfixReadsBack(RecommendationsQuery, productId, "");
    assert RecommendationsUrl(productId) + "" == RecommendationsUrl(productId);
  }

  lemma ReviewsUrlCarriesId(productId: int)
    ensures var url := ReviewsUrl(productId);
            |ReviewsQuery| <= |url| && url[..|ReviewsQuery|] == ReviewsQuery
            && Decimal.ParseInt(url[|ReviewsQuery|..]) == productId
  {
    InfixReadsBack(ReviewsQuery, productId, "");
    assert ReviewsUrl(productId) + "" == ReviewsUrl(productId);
  }

  // ----- error translation -----

  /** The ObjectMapper reading a response body as HttpErrorInfo; `None` when it
      throws an IOException. */
  type ErrorBodyParser = string -> Option<HttpErrorInfo>

  /** getErrorMessage: the `message` of the parsed error body, or the exception's own
      message when the body does not parse. */
  function ErrorMessage(parse: ErrorBodyParser, ex: Error): (m: string)
    requires ex.HttpResponse?
    ensures parse(ex.body).Some? ==> m == parse(ex.body).value.message
    ensures parse(ex.body).None? ==> m == ex.message
  {
    match parse(ex.body)
    case Some(info) => info.message
    case None => ex.message
  }

  /** handleException: 404 and 422 become the domain's NotFound and InvalidInput
      carrying the downstream's message; every other status, taken to be one that
      `HttpStatus` defines, and every error that is not an HTTP response, is returned
      unchanged. */
  function HandleException(parse: ErrorBodyParser, ex: Error): (r: Error)
    ensures !ex.HttpResponse? ==> r == ex
    ensures ex.HttpResponse? && ex.status != NOT_FOUND && ex.status != UNPROCESSABLE_ENTITY ==> r == ex
    ensures ex.HttpResponse? && ex.status == NOT_FOUND ==> r == NotFound(ErrorMessage(parse, ex))
    ensures ex.HttpResponse? && ex.status == UNPROCESSABLE_ENTITY ==> r == InvalidInput(ErrorMessage(parse, ex))
  {
    if !ex.HttpResponse? then ex
    else if ex.status == NOT_FOUND then NotFound(ErrorMessage(parse, ex))
    else if ex.status == UNPROCESSABLE_ENTITY then InvalidInput(ErrorMessage(parse, ex))
    else ex
  }

  /** Translating twice is translating once: a translated error is no longer a 404 or
      422 response. */
  lemma HandleExceptionIdempotent(parse: ErrorBodyParser, ex: Error)
    ensures HandleException(parse, HandleException(parse, ex)) == HandleException(parse, ex)
  {
  }

  /** A downstream 404 whose body is that service's error envelope reaches the caller
      as NotFound with the downstream's own message. */
  lemma NotFoundKeepsDownstreamMessage(parse: ErrorBodyParser, body: string, text: string, info: HttpErrorInfo)
    requires parse(body) == Some(info)
    ensures HandleException(parse, HttpResponse(NOT_FOUND, body, text)) == NotFound(info.message)
  {
  }

  // ----- read legs -----

  /** What a Flux delivered: the elements that arrived and, possibly, the error that
      ended it. */
  datatype Stream<T> = Stream(items: seq<T>, failure: Option<Error>)

  /** getProduct's answer: `onErrorMap(WebClientResponseException, handleException)`
      applied to the response; an empty body is an empty Mono. */
  function ProductLeg(parse: ErrorBodyParser, response: Result<Option<Product>>): (r: Result<Option<Product>>)
    ensures r.Ok? <==> response.Ok?
    ensures response.Ok? ==> r == response
    ensures response.Err? ==> r.error == HandleException(parse, response.error)
  {
    match response
    case Ok(p) => Ok(p)
    case Err(e) => Err(HandleException(parse, e))
  }

  /** `onErrorResume(error -> empty())` followed by `collectList()`: the elements that
      arrived before an error are kept, the error is dropped. */
  function BestEffort<T>(response: Stream<T>): (r: seq<T>)
    ensures response.failure.None? ==> r == response.items
    ensures response.failure.Some? ==> r == response.items
  {
    response.items
  }

  // ----- events -----

  function ProductCreated(body: Product): Event<Product> { Event(CREATE, body.productId, Some(body)) }
  function RecommendationCreated(body: Recommendation): Event<Recommendation> { Event(CREATE, body.productId, Some(body)) }
  function ReviewCreated(body: Review): Event<Review> { Event(CREATE, body.productId, Some(body)) }
  function Deleted<T>(productId: int): Event<T> { Event(DELETE, productId, None) }

  // ----- sends -----

  /** The binder's behaviour on one channel: the `send` that would put the n-th event
      on it throws `faults[n]` when `n` is a key, and goes through otherwise. */
  type SendFaults = map<nat, Error>

  /** How many of `count` consecutive sends, the first of them at position `from`, go
      through before one throws: the length of the fault-free run starting at `from`. */
  function SentBeforeFault(faults: SendFaults, from: nat, count: nat): (k: nat)
    ensures k <= count
    ensures forall n :: from <= n < from + k ==> n !in faults
    ensures k < count ==> from + k in faults
    decreases count
  {
    if count == 0 || from in faults then 0
    else 1 + SentBeforeFault(faults, from + 1, count - 1)
  }

  /** The client `webClientBuilder.build()` produces. */
  class WebClient {
    constructor ()
    {
    }
  }

  class Integration {
    /** The three output channels, as the sequences of events sent on them. */
    var products: seq<Event<Product>>
    var recommendations: seq<Event<Recommendation>>
    var reviews: seq<Event<Review>>

    /** Which sends on each channel throw, by the position the event would take. */
    const productsFaults: SendFaults
    const recommendationsFaults: SendFaults
    const reviewsFaults: SendFaults

    const parse: ErrorBodyParser

    var webClient: WebClient?
    /** How many clients have been built. */
    ghost var clientBuilds: nat

    ghost predicate Valid()
      reads this
    {
      clientBuilds <= 1 && (webClient == null <==> clientBuilds == 0)
    }

    constructor (parse: ErrorBodyParser, productsFaults: SendFaults, recommendationsFaults: SendFaults,
                 reviewsFaults: SendFaults)
      ensures Valid() && webClient == null
      ensures products == [] && recommendations == [] && reviews == []
      ensures this.parse == parse && this.productsFaults == productsFaults
      ensures this.recommendationsFaults == recommendationsFaults && this.reviewsFaults == reviewsFaults
    {
      this.parse := parse;
      this.productsFaults := productsFaults;
      this.recommendationsFaults := recommendationsFaults;
      this.reviewsFaults := reviewsFaults;
      products, recommendations, reviews := [], [], [];
      webClient := null;
      clientBuilds := 0;
    }

    /** createProduct: one CREATE keyed by the product id on the products channel; the
        body is returned unchanged. */
    method CreateProduct(body: Product) returns (r: Result<Product>)
      modifies this`products
      ensures |old(products)| !in productsFaults ==>
                products == old(products) + [ProductCreated(body)] && r == Ok(body)
      ensures |old(products)| in productsFaults ==>
                products == old(products) && r == Err(productsFaults[|old(products)|])
    {
      if |products| in productsFaults {
        return Err(productsFaults[|products|]);
      }
      products := products + [Event(CREATE, body.productId, Some(body))];
      r := Ok(body);
    }

    method DeleteProduct(productId: int) returns (r: Outcome)
      modifies this`products
      ensures |old(products)| !in productsFaults ==>
                products == old(products) + [Deleted(productId)] && r == Done
      ensures |old(products)| in productsFaults ==>
                products == old(products) && r == Failed(productsFaults[|old(products)|])
    {
      if |products| in productsFaults {
        return Failed(productsFaults[|products|]);
      }
      products := products + [Event(DELETE, productId, None)];
      r := Done;
    }

    method CreateRecommendation(body: Recommendation) returns (r: Result<Recommendation>)
      modifies this`recommendations
      ensures |old(recommendations)| !in recommendationsFaults ==>
                recommendations == old(recommendations) + [RecommendationCreated(body)] && r == Ok(body)
      ensures |old(recommendations)| in recommendationsFaults ==>
                recommendations == old(recommendations) && r == Err(recommendationsFaults[|old(recommendations)|])
    {
      if |recommendations| in recommendationsFaults {
        return Err(recommendationsFaults[|recommendations|]);
      }
      recommendations := recommendations + [Event(CREATE, body.productId, Some(body))];
      r := Ok(body);
    }

    method DeleteRecommendations(productId: int) returns (r: Outcome)
      modifies this`recommendations
      ensures |old(recommendations)| !in recommendationsFaults ==>
                recommendations == old(recommendations) + [Deleted(productId)] && r == Done
      ensures |old(recommendations)| in recommendationsFaults ==>
                recommendations == old(recommendations) && r == Failed(recommendationsFaults[|old(recommendations)|])
    {
      if |recommendations| in recommendationsFaults {
        return Failed(recommendationsFaults[|recommendations|]);
      }
      recommendations := recommendations + [Event(DELETE, productId, None)];
      r := Done;
    }

    method CreateReview(body: Review) returns (r: Result<Review>)
      modifies this`reviews
      ensures |old(reviews)| !in reviewsFaults ==>
                reviews == old(reviews) + [ReviewCreated(body)] && r == Ok(body)
      ensures |old(reviews)| in reviewsFaults ==>
                reviews == old(reviews) && r == Err(reviewsFaults[|old(reviews)|])
    {
      if |reviews| in reviewsFaults {
        return Err(reviewsFaults[|reviews|]);
      }
      reviews := reviews + [Event(CREATE, body.productId, Some(body))];
      r := Ok(body);
    }

    method DeleteReviews(productId: int) returns (r: Outcome)
      modifies this`reviews
      ensures |old(reviews)| !in reviewsFaults ==>
                reviews == old(reviews) + [Deleted(productId)] && r == Done
      ensures |old(reviews)| in reviewsFaults ==>
                reviews == old(reviews) && r == Failed(reviewsFaults[|old(reviews)|])
    {
      if |reviews| in reviewsFaults {
        return Failed(reviewsFaults[|reviews|]);
      }
      reviews := reviews + [Event(DELETE, productId, None)];
      r := Done;
    }

    /** getWebClient: builds the client on first use and hands out that same client
        ever after. */
    method GetWebClient() returns (client: WebClient)
      requires Valid()
      modifies this`webClient, this`clientBuilds
      ensures Valid() && webClient == client
      ensures old(webClient) != null ==> client == old(webClient) && clientBuilds == old(clientBuilds)
      ensures old(webClient) == null ==> fresh(client)
    {
      if webClient == null {
        webClient := new WebClient();
        clientBuilds := clientBuilds + 1;
      }
      client := webClient;
    }

    /** getProduct: the request URL it issues, and the answer for the given response. */
    method GetProduct(productId: int, delay: int, faultPercent: int, response: Result<Option<Product>>)
      returns (url: string, r: Result<Option<Product>>)
      requires Valid()
      modifies this`webClient, this`clientBuilds
      ensures Valid()
      ensures old(webClient) != null ==> webClient == old(webClient)
      ensures url == ProductUrl(productId, delay, faultPercent)
      ensures r == ProductLeg(parse, response)
    {
      url := ProductPath + Decimal.IntToString(productId)
             + ("?delay=" + Decimal.IntToString(delay) + "&faultPercent=" + Decimal.IntToString(faultPercent));
      var _ := GetWebClient();
      match response {
        case Ok(p) => r := Ok(p);
        case Err(e) => r := Err(HandleException(parse, e));
      }
    }

    method GetRecommendations(productId: int, response: Stream<Recommendation>)
      returns (url: string, r: seq<Recommendation>)
      requires Valid()
      modifies this`webClient, this`clientBuilds
      ensures Valid()
      ensures old(webClient) != null ==> webClient == old(webClient)
      ensures url == RecommendationsUrl(productId)
      ensures r == BestEffort(response)
    {
      url := RecommendationsQuery + Decimal.IntToString(productId);
      var _ := GetWebClient();
      r := response.items;
    }

    method GetReviews(productId: int, response: Stream<Review>)
      returns (url: string, r: seq<Review>)
      requires Valid()
      modifies this`webClient, this`clientBuilds
      ensures Valid()
      ensures old(webClient) != null ==> webClient == old(webClient)
      ensures url == ReviewsUrl(productId)
      ensures r == BestEffort(response)
    {
      url := ReviewsQuery + Decimal.IntToString(productId);
      var _ := GetWebClient();
      r := response.items;
    }
  }
}
