/** product-composite-service, ProductCompositeServiceImpl: a composite write is split
    into one product command and one command per recommendation and review summary;
    a composite read assembles the product with the two best-effort lists. */
module CompositeService {
  import opened Util
  import opened Api
  import opened Events
  import opened CompositeIntegration
  import RecommendationCore

  // ----- write side: splitting an aggregate into commands -----

  /** The product built from the aggregate: its id, name and weight, no address. */
  function ProductCommand(body: ProductAggregate): Product
  {
    Product(body.productId, body.name, body.weight, None)
  }

  /** One recommendation command: the aggregate's product id, the summary's fields, no address. */
  function RecommendationCommand(productId: int, r: RecommendationSummary): Recommendation
  {
    Recommendation(productId, r.recommendationId, r.author, r.rate, r.content, None)
  }

  function ReviewCommand(productId: int, r: ReviewSummary): Review
  {
    Review(productId, r.reviewId, r.author, r.subject, r.content, None)
  }

  /** The `forEach` over the recommendation summaries: one command per summary, in order. */
  function RecommendationCommandsOf(productId: int, summaries: seq<RecommendationSummary>): (cmds: seq<Recommendation>)
    ensures |cmds| == |summaries|
    ensures forall i :: 0 <= i < |cmds| ==>
              cmds[i].productId == productId && cmds[i].serviceAddress == None
              && cmds[i].recommendationId == summaries[i].recommendationId && cmds[i].author == summaries[i].author
              && cmds[i].rate == summaries[i].rate && cmds[i].content == summaries[i].content
  {
    if summaries == [] then []
    else [RecommendationCommand(productId, summaries[0])] + RecommendationCommandsOf(productId, summaries[1..])
  }

  function ReviewCommandsOf(productId: int, summaries: seq<ReviewSummary>): (cmds: seq<Review>)
    ensures |cmds| == |summaries|
    ensures forall i :: 0 <= i < |cmds| ==>
              cmds[i].productId == productId && cmds[i].serviceAddress == None
              && cmds[i].reviewId == summaries[i].reviewId && cmds[i].author == summaries[i].author
              && cmds[i].subject == summaries[i].subject && cmds[i].content == summaries[i].content
  {
    if summaries == [] then []
    else [ReviewCommand(productId, summaries[0])] + ReviewCommandsOf(productId, summaries[1..])
  }

  /** A `null` list of summaries yields no commands. */
  function RecommendationCommands(body: ProductAggregate): seq<Recommendation>
  {
    if body.recommendations.None? then [] else RecommendationCommandsOf(body.productId, body.recommendations.value)
  }

  function ReviewCommands(body: ProductAggregate): seq<Review>
  {
    if body.reviews.None? then [] else ReviewCommandsOf(body.productId, body.reviews.value)
  }

  /** The CREATE events `createRecommendation` sends for a list of commands, in order. */
  function RecommendationCreates(cmds: seq<Recommendation>): (events: seq<Event<Recommendation>>)
  {
    seq(|cmds|, i requires 0 <= i < |cmds| => RecommendationCreated(cmds[i]))
  }

  function ReviewCreates(cmds: seq<Review>): (events: seq<Event<Review>>)
  {
    seq(|cmds|, i requires 0 <= i < |cmds| => ReviewCreated(cmds[i]))
  }

  lemma RecommendationCreatesExtend(cmds: seq<Recommendation>, i: int)
    requires 0 <= i < |cmds|
    ensures RecommendationCreates(cmds[..i + 1]) == RecommendationCreates(cmds[..i]) + [RecommendationCreated(cmds[i])]
  {
    assert RecommendationCreates(cmds[..i + 1]) == RecommendationCreates(cmds[..i]) + [RecommendationCreated(cmds[i])];
  }

  lemma ReviewCreatesExtend(cmds: seq<Review>, i: int)
    requires 0 <= i < |cmds|
    ensures ReviewCreates(cmds[..i + 1]) == ReviewCreates(cmds[..i]) + [ReviewCreated(cmds[i])]
  {
    assert ReviewCreates(cmds[..i + 1]) == ReviewCreates(cmds[..i]) + [ReviewCreated(cmds[i])];
  }

  /** The product event carries the aggregate's id as its key, and its id, name and
      weight as its data, with a `null` address. */
  lemma ProductEventOfAggregate(body: ProductAggregate)
    ensures var e := ProductCreated(ProductCommand(body));
            e.eventType == CREATE && e.key == body.productId
            && e.data == Some(Product(body.productId, body.name, body.weight, None))
  {
  }

  /** Every recommendation event is a CREATE keyed by the aggregate's product id, and
      there is one per summary, in list order; a `null` list gives none. */
  lemma RecommendationEventsOfAggregate(body: ProductAggregate)
    ensures var events := RecommendationCreates(RecommendationCommands(body));
            (body.recommendations.None? ==> events == [])
            && (body.recommendations.Some? ==>
                  |events| == |body.recommendations.value|
                  && forall i :: 0 <= i < |events| ==>
                       events[i].eventType == CREATE && events[i].key == body.productId
                       && events[i].data == Some(RecommendationCommand(body.productId, body.recommendations.value[i])))
  {
  }

  lemma ReviewEventsOfAggregate(body: ProductAggregate)
    ensures var events := ReviewCreates(ReviewCommands(body));
            (body.reviews.None? ==> events == [])
            && (body.reviews.Some? ==>
                  |events| == |body.reviews.value|
                  && forall i :: 0 <= i < |events| ==>
                       events[i].eventType == CREATE && events[i].key == body.productId
                       && events[i].data == Some(ReviewCommand(body.productId, body.reviews.value[i])))
  {
  }

  // ----- read side: createProductAggregate -----

  function RecommendationSummaryOf(r: Recommendation): RecommendationSummary
  {
    RecommendationSummary(r.recommendationId, r.author, r.rate, r.content)
  }

  function ReviewSummaryOf(r: Review): ReviewSummary
  {
    ReviewSummary(r.reviewId, r.author, r.subject, r.content)
  }

  /** The stream `map` to summaries: same length and order, element i keeps the id,
      author, rate and content of input i. */
  function RecommendationSummaries(rs: seq<Recommendation>): (s: seq<RecommendationSummary>)
    ensures |s| == |rs|
    ensures forall i :: 0 <= i < |s| ==>
              s[i].recommendationId == rs[i].recommendationId && s[i].author == rs[i].author
              && s[i].rate == rs[i].rate && s[i].content == rs[i].content
  {
    if rs == [] then [] else [RecommendationSummaryOf(rs[0])] + RecommendationSummaries(rs[1..])
  }

  function ReviewSummaries(rs: seq<Review>): (s: seq<ReviewSummary>)
    ensures |s| == |rs|
    ensures forall i :: 0 <= i < |s| ==>
              s[i].reviewId == rs[i].reviewId && s[i].author == rs[i].author
              && s[i].subject == rs[i].subject && s[i].content == rs[i].content
  {
    if rs == [] then [] else [ReviewSummaryOf(rs[0])] + ReviewSummaries(rs[1..])
  }

  /** The address of the instance that answered a list: its first element's, or ""
      when the list is `null` or empty. */
  function FirstRecommendationAddress(rs: Option<seq<Recommendation>>): Option<string>
  {
    if rs.Some? && |rs.value| > 0 then rs.value[0].serviceAddress else Some("")
  }

  function FirstReviewAddress(rs: Option<seq<Review>>): Option<string>
  {
    if rs.Some? && |rs.value| > 0 then rs.value[0].serviceAddress else Some("")
  }

  /** createProductAggregate. */
  function Assemble(product: Product, recommendations: Option<seq<Recommendation>>,
                    reviews: Option<seq<Review>>, serviceAddress: string): (a: ProductAggregate)
    ensures a.productId == product.productId && a.name == product.name && a.weight == product.weight
    ensures a.recommendations.Some? <==> recommendations.Some?
    ensures a.reviews.Some? <==> reviews.Some?
    ensures recommendations.Some? ==> a.recommendations.value == RecommendationSummaries(recommendations.value)
    ensures reviews.Some? ==> a.reviews.value == ReviewSummaries(reviews.value)
    ensures a.serviceAddresses.Some?
    ensures var addr := a.serviceAddresses.value;
            addr.cmp == Some(serviceAddress) && addr.pro == product.serviceAddress
            && (reviews.Some? && |reviews.value| > 0 ==> addr.rev == reviews.value[0].serviceAddress)
            && (reviews.None? || reviews.value == [] ==> addr.rev == Some(""))
            && (recommendations.Some? && |recommendations.value| > 0 ==> addr.rec == recommendations.value[0].serviceAddress)
            && (recommendations.None? || recommendations.value == [] ==> addr.rec == Some(""))
  {
    var recommendationSummaries :=
      if recommendations.None? then None else Some(RecommendationSummaries(recommendations.value));
    var reviewSummaries := if reviews.None? then None else Some(ReviewSummaries(reviews.value));
    var serviceAddresses := ServiceAddress(
      Some(serviceAddress), product.serviceAddress, FirstReviewAddress(reviews), FirstRecommendationAddress(recommendations));
    ProductAggregate(product.productId, product.name, product.weight,
                     recommendationSummaries, reviewSummaries, Some(serviceAddresses))
  }

  /** getCompositeProduct as a function of what the three legs delivered: `Mono.zip`
      fails when the product leg fails and is empty when it is empty; the two
      best-effort legs always complete, with what arrived before any error. */
  function Compose(parse: ErrorBodyParser, product: Result<Option<Product>>,
                   recommendations: Stream<Recommendation>, reviews: Stream<Review>,
                   serviceAddress: string): (r: Result<Option<ProductAggregate>>)
    ensures r.Err? <==> product.Err?
    ensures product.Err? ==> r.error == HandleException(parse, product.error)
    ensures product == Ok(None) ==> r == Ok(None)
    ensures product.Ok? && product.value.Some? ==>
              r == Ok(Some(Assemble(product.value.value, Some(BestEffort(recommendations)),
                                    Some(BestEffort(reviews)), serviceAddress)))
  {
    match ProductLeg(parse, product)
    case Err(e) => Err(e)
    case Ok(None) => Ok(None)
    case Ok(Some(p)) =>
      Ok(Some(Assemble(p, Some(BestEffort(recommendations)), Some(BestEffort(reviews)), serviceAddress)))
  }

  /** A found product whose two other legs both failed before delivering anything
      yields empty (not `null`) lists and "" for both of their addresses. */
  lemma FailedLegsDegrade(parse: ErrorBodyParser, p: Product, e1: Error, e2: Error, serviceAddress: string)
    ensures var r := Compose(parse, Ok(Some(p)), Stream([], Some(e1)), Stream([], Some(e2)), serviceAddress);
            r.Ok? && r.value.Some?
            && r.value.value.recommendations == Some([]) && r.value.value.reviews == Some([])
            && r.value.value.serviceAddresses
               == Some(ServiceAddress(Some(serviceAddress), p.serviceAddress, Some(""), Some("")))
  {
  }

  /** A product service answering 404 with its error envelope makes the composite
      read fail with NotFound and the product service's own message. */
  lemma NotFoundPropagates(parse: ErrorBodyParser, body: string, text: string, info: HttpErrorInfo,
                           recommendations: Stream<Recommendation>, reviews: Stream<Review>,
                           serviceAddress: string)
    requires parse(body) == Some(info)
    ensures Compose(parse, Err(HttpResponse(NOT_FOUND, body, text)), recommendations, reviews, serviceAddress)
         == Err(NotFound(info.message))
  {
  }

  /** Summarising the commands built from summaries gives back those summaries. */
  lemma {:induction false} SummariesOfCommands(productId: int, summaries: seq<RecommendationSummary>)
    ensures RecommendationSummaries(RecommendationCommandsOf(productId, summaries)) == summaries
  {
    var s := RecommendationSummaries(RecommendationCommandsOf(productId, summaries));
    assert forall i :: 0 <= i < |s| ==> s[i] == summaries[i];
  }

  // ----- write then read, through the recommendation consumer -----

  /** The entities the consumer stores for a list of commands, in order. */
  function StoredEntities(cmds: seq<Recommendation>): seq<RecommendationCore.RecommendationEntity>
  {
    seq(|cmds|, i requires 0 <= i < |cmds| => RecommendationCore.ApiToEntity(cmds[i]))
  }

  /** Keys that are all fresh and pairwise distinct, for commands of one product. */
  predicate FreshDistinct(s: RecommendationCore.Store, cmds: seq<Recommendation>, productId: int)
  {
    && (forall i :: 0 <= i < |cmds| ==>
          cmds[i].productId == productId && !RecommendationCore.HasKey(s, productId, cmds[i].recommendationId))
    && (forall i, j :: 0 <= i < j < |cmds| ==> cmds[i].recommendationId != cmds[j].recommendationId)
  }

  /** Consuming CREATE events for recommendations of one product, none of whose keys
      the store holds yet, appends their entities to that product's entries in order. */
  lemma {:induction false} CreatesAppendInOrder(s: RecommendationCore.Store, cmds: seq<Recommendation>, productId: int)
    requires RecommendationCore.UniqueKeys(s) && FreshDistinct(s, cmds, productId)
    ensures RecommendationCore.ForProduct(RecommendationCore.ProcessAll(s, RecommendationCreates(cmds)), productId)
         == RecommendationCore.ForProduct(s, productId) + StoredEntities(cmds)
    decreases |cmds|
  {
    if cmds == [] {
      assert StoredEntities(cmds) == [];
    } else {
      FoldStepStore(s, cmds, productId);
      FoldStepRead(s, cmds, productId);
      CreatesAppendInOrder(s + [RecommendationCore.ApiToEntity(cmds[0])], cmds[1..], productId);
    }
  }

  /** One step of the fold above, for the store: the first entity is appended, the
      index stays unique and the remaining commands stay fresh. */
  lemma FoldStepStore(s: RecommendationCore.Store, cmds: seq<Recommendation>, productId: int)
    requires RecommendationCore.UniqueKeys(s) && |cmds| > 0 && FreshDistinct(s, cmds, productId)
    ensures var s1 := s + [RecommendationCore.ApiToEntity(cmds[0])];
            && RecommendationCore.UniqueKeys(s1)
            && FreshDistinct(s1, cmds[1..], productId)
            && RecommendationCore.ProcessAll(s, RecommendationCreates(cmds))
               == RecommendationCore.ProcessAll(s1, RecommendationCreates(cmds[1..]))
  {
    FirstCreateAppends(s, cmds);
    StillFreshAfterFirst(s, cmds, productId);
  }

  /** One step of the fold above, for the product's entries: moving the first entity
      from the commands to the store leaves the expected read unchanged. */
  lemma FoldStepRead(s: RecommendationCore.Store, cmds: seq<Recommendation>, productId: int)
    requires |cmds| > 0 && cmds[0].productId == productId
    ensures RecommendationCore.ForProduct(s, productId) + StoredEntities(cmds)
         == RecommendationCore.ForProduct(s + [RecommendationCore.ApiToEntity(cmds[0])], productId)
            + StoredEntities(cmds[1..])
  {
    var e := RecommendationCore.ApiToEntity(cmds[0]);
    RecommendationCore.ForProductAppend(s, e, productId);
    StoredEntitiesCons(cmds);
    var before := RecommendationCore.ForProduct(s, productId);
    assert before + [e] + StoredEntities(cmds[1..]) == before + StoredEntities(cmds);
  }

  lemma StoredEntitiesCons(cmds: seq<Recommendation>)
    requires |cmds| > 0
    ensures StoredEntities(cmds) == [RecommendationCore.ApiToEntity(cmds[0])] + StoredEntities(cmds[1..])
  {
    assert StoredEntities(cmds) == [RecommendationCore.ApiToEntity(cmds[0])] + StoredEntities(cmds[1..]);
  }

  /** Once the first command is stored, the remaining ones are still fresh and distinct. */
  lemma StillFreshAfterFirst(s: RecommendationCore.Store, cmds: seq<Recommendation>, productId: int)
    requires |cmds| > 0 && FreshDistinct(s, cmds, productId)
    ensures FreshDistinct(s + [RecommendationCore.ApiToEntity(cmds[0])], cmds[1..], productId)
  {
    var e := RecommendationCore.ApiToEntity(cmds[0]);
    var tail := cmds[1..];
    forall i | 0 <= i < |tail|
      ensures !RecommendationCore.HasKey(s + [e], productId, tail[i].recommendationId)
    {
      assert tail[i] == cmds[i + 1];
      RecommendationCore.HasKeyAppend(s, e, productId, tail[i].recommendationId);
    }
    forall i, j | 0 <= i < j < |tail| ensures tail[i].recommendationId != tail[j].recommendationId {
      assert tail[i] == cmds[i + 1] && tail[j] == cmds[j + 1];
    }
  }

  /** The first CREATE, for a key the store lacks, appends its entity and leaves the
      rest of the events to be consumed. */
  lemma FirstCreateAppends(s: RecommendationCore.Store, cmds: seq<Recommendation>)
    requires RecommendationCore.UniqueKeys(s) && |cmds| > 0
    requires !RecommendationCore.HasKey(s, cmds[0].productId, cmds[0].recommendationId)
    ensures RecommendationCore.UniqueKeys(s + [RecommendationCore.ApiToEntity(cmds[0])])
    ensures RecommendationCore.ProcessAll(s, RecommendationCreates(cmds))
         == RecommendationCore.ProcessAll(s + [RecommendationCore.ApiToEntity(cmds[0])], RecommendationCreates(cmds[1..]))
  {
    var events := RecommendationCreates(cmds);
    assert events[0] == Event(CREATE, cmds[0].productId, Some(cmds[0]));
    assert events[1..] == RecommendationCreates(cmds[1..]);
  }

  /** The entities stored for an aggregate's commands read back, with the reader's
      address, as the aggregate's own summaries. */
  lemma StoredCommandsReadBack(productId: int, summaries: seq<RecommendationSummary>, serviceAddress: string)
    ensures var read := RecommendationCore.ToApiList(StoredEntities(RecommendationCommandsOf(productId, summaries)), serviceAddress);
            && RecommendationSummaries(read) == summaries
            && forall i :: 0 <= i < |read| ==>
                 read[i].productId == productId && read[i].serviceAddress == Some(serviceAddress)
  {
    var read := RecommendationCore.ToApiList(StoredEntities(RecommendationCommandsOf(productId, summaries)), serviceAddress);
    var back := RecommendationSummaries(read);
    assert forall i :: 0 <= i < |back| ==> back[i] == summaries[i];
  }

  /** A store holding nothing for the product, and distinct recommendation ids in the
      body, make the body's commands fresh for that store. */
  lemma AggregateCommandsFresh(s: RecommendationCore.Store, body: ProductAggregate)
    requires body.recommendations.Some?
    requires forall i :: 0 <= i < |s| ==> s[i].productId != body.productId
    requires var l := body.recommendations.value;
             forall i, j :: 0 <= i < j < |l| ==> l[i].recommendationId != l[j].recommendationId
    ensures FreshDistinct(s, RecommendationCommands(body), body.productId)
  {
    var cmds := RecommendationCommandsOf(body.productId, body.recommendations.value);
    assert RecommendationCommands(body) == cmds;
    forall i | 0 <= i < |cmds|
      ensures !RecommendationCore.HasKey(s, body.productId, cmds[i].recommendationId)
    {
    }
  }

  /** Consuming fresh CREATE events into a store that held nothing for the product
      leaves exactly their entities to read back. */
  lemma ReadAfterCreates(s: RecommendationCore.Store, cmds: seq<Recommendation>, productId: int, serviceAddress: string)
    requires RecommendationCore.UniqueKeys(s) && productId >= 1 && FreshDistinct(s, cmds, productId)
    requires forall i :: 0 <= i < |s| ==> s[i].productId != productId
    ensures RecommendationCore.Get(RecommendationCore.ProcessAll(s, RecommendationCreates(cmds)), serviceAddress, productId)
         == Ok(RecommendationCore.ToApiList(StoredEntities(cmds), serviceAddress))
  {
    var stored := RecommendationCore.ProcessAll(s, RecommendationCreates(cmds));
    CreatesAppendInOrder(s, cmds, productId);
    RecommendationCore.GetWithNoEntries(s, serviceAddress, productId);
    assert |RecommendationCore.ForProduct(s, productId)| == 0;
    assert RecommendationCore.ForProduct(stored, productId) == StoredEntities(cmds);
  }

  /** An aggregate's recommendations, once their events are consumed by a store that
      held nothing for the product, read back through getRecommendations as the same
      summaries, each stamped with the reading instance's address. */
  lemma WriteThenReadRecommendations(s: RecommendationCore.Store, body: ProductAggregate, serviceAddress: string)
    requires RecommendationCore.UniqueKeys(s)
    requires body.productId >= 1 && body.recommendations.Some?
    requires forall i :: 0 <= i < |s| ==> s[i].productId != body.productId
    requires var l := body.recommendations.value;
             forall i, j :: 0 <= i < j < |l| ==> l[i].recommendationId != l[j].recommendationId
    ensures var stored := RecommendationCore.ProcessAll(s, RecommendationCreates(RecommendationCommands(body)));
            var read := RecommendationCore.Get(stored, serviceAddress, body.productId);
            read.Ok? && RecommendationSummaries(read.value) == body.recommendations.value
            && forall i :: 0 <= i < |read.value| ==>
                 read.value[i].productId == body.productId && read.value[i].serviceAddress == Some(serviceAddress)
  {
    AggregateCommandsFresh(s, body);
    ReadAfterCreates(s, RecommendationCommands(body), body.productId, serviceAddress);
    StoredCommandsReadBack(body.productId, body.recommendations.value, serviceAddress);
  }

  /** The fault-free run is exactly `i` long when the `i` sends from `from` on go
      through and the next one, if any is left, throws. */
  lemma SentBeforeFaultIs(faults: SendFaults, from: nat, count: nat, i: nat)
    requires i <= count
    requires forall n :: from <= n < from + i ==> n !in faults
    requires i < count ==> from + i in faults
    ensures SentBeforeFault(faults, from, count) == i
  {
  }

  // ----- what createCompositeProduct sends -----

  /** The events a composite write puts on each channel, and how it ends. */
  datatype Sent = Sent(products: seq<Event<Product>>, recommendations: seq<Event<Recommendation>>,
                       reviews: seq<Event<Review>>, outcome: Outcome)

  /** createCompositeProduct against channels whose sends from the given positions
      throw as `*Faults` say: the product event, then the recommendation events, then
      the review events, stopping at the first send that throws, whose exception is
      the outcome. */
  function CreateSends(body: ProductAggregate, productsFaults: SendFaults, productsFrom: nat,
                       recommendationsFaults: SendFaults, recommendationsFrom: nat,
                       reviewsFaults: SendFaults, reviewsFrom: nat): Sent
  {
    var recs := RecommendationCommands(body);
    var revs := ReviewCommands(body);
    var k := SentBeforeFault(recommendationsFaults, recommendationsFrom, |recs|);
    var m := SentBeforeFault(reviewsFaults, reviewsFrom, |revs|);
    if productsFrom in productsFaults then
      Sent([], [], [], Failed(productsFaults[productsFrom]))
    else if k < |recs| then
      Sent([ProductCreated(ProductCommand(body))], RecommendationCreates(recs[..k]), [],
           Failed(recommendationsFaults[recommendationsFrom + k]))
    else
      Sent([ProductCreated(ProductCommand(body))], RecommendationCreates(recs), ReviewCreates(revs[..m]),
           if m < |revs| then Failed(reviewsFaults[reviewsFrom + m]) else Done)
  }

  lemma RecommendationCreatesPrefix(cmds: seq<Recommendation>, k: nat)
    requires k <= |cmds|
    ensures RecommendationCreates(cmds[..k]) == RecommendationCreates(cmds)[..k]
  {
    assert RecommendationCreates(cmds[..k]) == RecommendationCreates(cmds)[..k];
  }

  lemma ReviewCreatesPrefix(cmds: seq<Review>, k: nat)
    requires k <= |cmds|
    ensures ReviewCreates(cmds[..k]) == ReviewCreates(cmds)[..k]
  {
    assert ReviewCreates(cmds[..k]) == ReviewCreates(cmds)[..k];
  }

  /** A composite write completes exactly when none of its sends throws, and then
      every event of the aggregate has gone out. */
  lemma CreateSendsDoneIffNoFault(body: ProductAggregate, productsFaults: SendFaults, productsFrom: nat,
                                  recommendationsFaults: SendFaults, recommendationsFrom: nat,
                                  reviewsFaults: SendFaults, reviewsFrom: nat)
    ensures var sent := CreateSends(body, productsFaults, productsFrom, recommendationsFaults, recommendationsFrom,
                                    reviewsFaults, reviewsFrom);
            var recs := RecommendationCommands(body);
            var revs := ReviewCommands(body);
            && (sent.outcome == Done <==>
                  && productsFrom !in productsFaults
                  && (forall n :: recommendationsFrom <= n < recommendationsFrom + |recs| ==> n !in recommendationsFaults)
                  && (forall n :: reviewsFrom <= n < reviewsFrom + |revs| ==> n !in reviewsFaults))
            && (sent.outcome == Done ==>
                  && sent.products == [ProductCreated(ProductCommand(body))]
                  && sent.recommendations == RecommendationCreates(recs)
                  && sent.reviews == ReviewCreates(revs))
  {
    var recs := RecommendationCommands(body);
    var revs := ReviewCommands(body);
    var k := SentBeforeFault(recommendationsFaults, recommendationsFrom, |recs|);
    var m := SentBeforeFault(reviewsFaults, reviewsFrom, |revs|);
    if k < |recs| {
      assert recommendationsFrom + k in recommendationsFaults;
    }
    if m < |revs| {
      assert reviewsFrom + m in reviewsFaults;
    } else {
      assert revs[..m] == revs;
    }
  }

  /** Whatever throws, each channel receives a prefix of the aggregate's events for
      it, the recommendations only once the product event is out and the reviews only
      once every recommendation is out. */
  lemma CreateSendsInOrder(body: ProductAggregate, productsFaults: SendFaults, productsFrom: nat,
                           recommendationsFaults: SendFaults, recommendationsFrom: nat,
                           reviewsFaults: SendFaults, reviewsFrom: nat)
    ensures var sent := CreateSends(body, productsFaults, productsFrom, recommendationsFaults, recommendationsFrom,
                                    reviewsFaults, reviewsFrom);
            var recs := RecommendationCommands(body);
            var revs := ReviewCommands(body);
            && sent.products <= [ProductCreated(ProductCommand(body))]
            && sent.recommendations <= RecommendationCreates(recs)
            && sent.reviews <= ReviewCreates(revs)
            && (sent.recommendations != [] ==> sent.products != [])
            && (sent.reviews != [] ==> sent.recommendations == RecommendationCreates(recs))
  {
    var recs := RecommendationCommands(body);
    var revs := ReviewCommands(body);
    RecommendationCreatesPrefix(recs, SentBeforeFault(recommendationsFaults, recommendationsFrom, |recs|));
    ReviewCreatesPrefix(revs, SentBeforeFault(reviewsFaults, reviewsFrom, |revs|));
  }

  // ----- the service -----

  class ProductCompositeService {
    const integration: Integration
    /** `serviceUtil.getServiceAddress()`: this instance's host and port. */
    const serviceAddress: string

    constructor (integration: Integration, serviceAddress: string)
      ensures this.integration == integration && this.serviceAddress == serviceAddress
    {
      this.integration := integration;
      this.serviceAddress := serviceAddress;
    }

    /** createCompositeProduct: the product command, then each recommendation, then
        each review; the first send that throws is rethrown unchanged, what was
        already sent stays sent and nothing after it is sent. */
    method CreateCompositeProduct(body: ProductAggregate) returns (r: Outcome)
      modifies integration`products, integration`recommendations, integration`reviews
      ensures var sent := CreateSends(body, integration.productsFaults, |old(integration.products)|,
                                      integration.recommendationsFaults, |old(integration.recommendations)|,
                                      integration.reviewsFaults, |old(integration.reviews)|);
              && integration.products == old(integration.products) + sent.products
              && integration.recommendations == old(integration.recommendations) + sent.recommendations
              && integration.reviews == old(integration.reviews) + sent.reviews
              && r == sent.outcome
    {
      ghost var recs, revs := RecommendationCommands(body), ReviewCommands(body);
      ghost var k := SentBeforeFault(integration.recommendationsFaults, |integration.recommendations|, |recs|);
      ghost var m := SentBeforeFault(integration.reviewsFaults, |integration.reviews|, |revs|);
      var product := integration.CreateProduct(ProductCommand(body));
      if product.Err? {
        return Failed(product.error);
      }
      if body.recommendations.Some? {
        r := CreateRecommendations(body.productId, body.recommendations.value);
        if r.Failed? {
          return;
        }
      }
      assert k == |recs| && recs[..k] == recs;
      if body.reviews.Some? {
        r := CreateReviews(body.productId, body.reviews.value);
        if r.Failed? {
          return;
        }
      }
      assert m == |revs| && revs[..m] == revs;
      r := Done;
    }

    /** The `forEach` over the recommendation summaries: the commands are sent in list
        order until one send throws; the ones before it stay sent. */
    method CreateRecommendations(productId: int, summaries: seq<RecommendationSummary>) returns (r: Outcome)
      modifies integration`recommendations
      ensures var cmds := RecommendationCommandsOf(productId, summaries);
              var from := |old(integration.recommendations)|;
              var k := SentBeforeFault(integration.recommendationsFaults, from, |cmds|);
              && integration.recommendations == old(integration.recommendations) + RecommendationCreates(cmds[..k])
              && r == (if k == |cmds| then Done else Failed(integration.recommendationsFaults[from + k]))
    {
      ghost var cmds := RecommendationCommandsOf(productId, summaries);
      ghost var start := integration.recommendations;
      ghost var from := |start|;
      ghost var faults := integration.recommendationsFaults;
      var i := 0;
      while i < |summaries|
        invariant 0 <= i <= |summaries|
        invariant integration.recommendations == start + RecommendationCreates(cmds[..i])
        invariant |integration.recommendations| == from + i
        invariant forall n :: from <= n < from + i ==> n !in faults
      {
        var created := integration.CreateRecommendation(RecommendationCommand(productId, summaries[i]));
        if created.Err? {
          SentBeforeFaultIs(faults, from, |cmds|, i);
          assert created.error == faults[from + i];
          return Failed(created.error);
        }
        assert cmds[i] == RecommendationCommand(productId, summaries[i]);
        RecommendationCreatesExtend(cmds, i);
        i := i + 1;
      }
      SentBeforeFaultIs(faults, from, |cmds|, i);
      assert cmds[..i] == cmds;
      r := Done;
    }

    /** The `forEach` over the review summaries, as for recommendations. */
    method CreateReviews(productId: int, summaries: seq<ReviewSummary>) returns (r: Outcome)
      modifies integration`reviews
      ensures var cmds := ReviewCommandsOf(productId, summaries);
              var from := |old(integration.reviews)|;
              var k := SentBeforeFault(integration.reviewsFaults, from, |cmds|);
              && integration.reviews == old(integration.reviews) + ReviewCreates(cmds[..k])
              && r == (if k == |cmds| then Done else Failed(integration.reviewsFaults[from + k]))
    {
      ghost var cmds := ReviewCommandsOf(productId, summaries);
      ghost var start := integration.reviews;
      ghost var from := |start|;
      ghost var faults := integration.reviewsFaults;
      var i := 0;
      while i < |summaries|
        invariant 0 <= i <= |summaries|
        invariant integration.reviews == start + ReviewCreates(cmds[..i])
        invariant |integration.reviews| == from + i
        invariant forall n :: from <= n < from + i ==> n !in faults
      {
        var created := integration.CreateReview(ReviewCommand(productId, summaries[i]));
        if created.Err? {
          SentBeforeFaultIs(faults, from, |cmds|, i);
          assert created.error == faults[from + i];
          return Failed(created.error);
        }
        assert cmds[i] == ReviewCommand(productId, summaries[i]);
        ReviewCreatesExtend(cmds, i);
        i := i + 1;
      }
      SentBeforeFaultIs(faults, from, |cmds|, i);
      assert cmds[..i] == cmds;
      r := Done;
    }

    /** getCompositeProduct: the three legs' answers combined. The product is asked
        for with no delay and no injected fault. */
    method GetCompositeProduct(productId: int, product: Result<Option<Product>>,
                               recommendations: Stream<Recommendation>, reviews: Stream<Review>)
      returns (r: Result<Option<ProductAggregate>>)
      requires integration.Valid()
      modifies integration`webClient, integration`clientBuilds
      ensures integration.Valid()
      ensures r == Compose(integration.parse, product, recommendations, reviews, serviceAddress)
    {
      var _, p := integration.GetProduct(productId, 0, 0, product);
      var _, recs := integration.GetRecommendations(productId, recommendations);
      var _, revs := integration.GetReviews(productId, reviews);
      match p {
        case Err(e) => r := Err(e);
        case Ok(None) => r := Ok(None);
        case Ok(Some(found)) => r := Ok(Some(Assemble(found, Some(recs), Some(revs), serviceAddress)));
      }
    }

    /** deleteCompositeProduct: the product, recommendations and reviews deletes, in
        that order, all for the same id; a send that throws stops the rest. */
    method DeleteCompositeProduct(productId: int) returns (r: Outcome)
      modifies integration`products, integration`recommendations, integration`reviews
      ensures var productFrom := |old(integration.products)|;
              var recsFrom := |old(integration.recommendations)|;
              var revsFrom := |old(integration.reviews)|;
              var productSent := productFrom !in integration.productsFaults;
              var recsSent := productSent && recsFrom !in integration.recommendationsFaults;
              var revsSent := recsSent && revsFrom !in integration.reviewsFaults;
              && integration.products == old(integration.products) + (if productSent then [Deleted(productId)] else [])
              && integration.recommendations
                 == old(integration.recommendations) + (if recsSent then [Deleted(productId)] else [])
              && integration.reviews == old(integration.reviews) + (if revsSent then [Deleted(productId)] else [])
              && r == (if !productSent then Failed(integration.productsFaults[productFrom])
                       else if !recsSent then Failed(integration.recommendationsFaults[recsFrom])
                       else if !revsSent then Failed(integration.reviewsFaults[revsFrom])
                       else Done)
    {
      r := integration.DeleteProduct(productId);
      if r.Failed? {
        return;
      }
      r := integration.DeleteRecommendations(productId);
      if r.Failed? {
        return;
      }
      r := integration.DeleteReviews(productId);
    }
  }
}
