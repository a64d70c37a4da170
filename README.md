# hands-on-microservices: composite writes, event consumers and read assembly

This project models the event-driven core of the hands-on-microservices system in Dafny:

- **Composite write path.** `ProductCompositeServiceImpl.createCompositeProduct` and
  `deleteCompositeProduct` split a product aggregate into one product command and one
  command per recommendation and review. `ProductCompositeIntegration` turns each
  command into an `Event` and sends it on one of three output channels (products,
  recommendations, reviews). The channels are `seq<Event<..>>` fields of the
  `Integration` class, and the composite methods append to them in the source's order.
- **Consumers and stores.** The product and recommendation `MessageProcessor`s dispatch
  CREATE/DELETE events into `ProductServiceImpl` and `RecommendationServiceImpl`.
  `ReviewServiceImpl` has the same store operations.
  - The product store is a map keyed by `productId`.
  - The recommendation and review stores are insertion-ordered sequences under a unique
    (productId, id) index.
  - Each store operation is a pure function on the store value, which the lemmas use,
    plus a class method proved equal to it.
- **Read assembly and error translation.** `getCompositeProduct` is a function of what
  its three legs delivered.
  - The product leg's HTTP errors are translated by `handleException`/`getErrorMessage`:
    404 becomes NotFound and 422 becomes InvalidInput.
  - The recommendation and review legs are best-effort.
  - `createProductAggregate` builds the summaries and the `ServiceAddress` record.

`Decimal` models Java's rendering of an `int` inside strings (`"..." + productId`), with
its inverse. Error messages and request URLs are therefore proved to carry their product
id recoverably.

Where the source's comments and its code disagree, the model follows the code:
- **Partial best-effort lists.** The comment at ProductCompositeIntegration.java:130 (and
  :159) says an empty result is returned if something goes wrong, but
  `onErrorResume(error -> empty())` keeps the elements delivered before the error.
  `CompositeIntegration.BestEffort` keeps the delivered prefix.
- **Lists are never null.** On the read path, `collectList()` always produces a list, so
  a composite read never has a `null` recommendation or review list. `null` arises only
  when `createProductAggregate` itself is given `null`, which `Assemble` models.
- **DELETE in the product consumer.** The product consumer's DELETE case falls through
  into its `default` branch (see Findings).

## Model

| member | source | states |
|---|---|---|
| Events.TypeName | api/src/main/java/com/example/api/event/Event.java:13 | a type prints as "CREATE" or "DELETE" |
| Events.NewEvent | api/src/main/java/com/example/api/event/Event.java:20-23 | the constructor stores type, key and data verbatim (an event is an immutable value) |
| Events.TypeClosed | api/src/main/java/com/example/api/event/Event.java:13 | the event type has exactly the two members CREATE and DELETE, and their printed names tell them apart |
| Decimal.IntRoundTrip | microservices/product-composite-service/src/main/java/com/example/microservices/composite/product/services/ProductCompositeIntegration.java:126 | the decimal text of any int, negative ones included, reads back as that int |
| Decimal.IntToStringInjective | microservices/product-service/src/main/java/com/example/microservices/core/product/services/ProductServiceImpl.java:34 | two different ids never render as the same text, so a message identifies its id |
| ProductCore.MapperRoundTrip | microservices/product-service/src/test/java/com/example/microservices/core/product/MapperTests.java:19-32 | api to entity to api keeps productId, name and weight, and the address comes back null |
| ProductCore.Create | microservices/product-service/src/main/java/com/example/microservices/core/product/services/ProductServiceImpl.java:25-35 | succeeds iff the productId is not stored. On success exactly that entity is added and the mapped body is returned. Otherwise the result is InvalidInput "Duplicate key, Product Id: X" and the store is unchanged. Other entries are never touched, and the store stays keyed by productId |
| ProductCore.Get | microservices/product-service/src/main/java/com/example/microservices/core/product/services/ProductServiceImpl.java:39-54 | ids below 1 give InvalidInput "Invalid productId: X" before any lookup. An absent id gives NotFound "No product found for productId: X". A stored id gives its stored fields with this instance's address. It succeeds iff the id is at least 1 and stored |
| ProductCore.Delete | microservices/product-service/src/main/java/com/example/microservices/core/product/services/ProductServiceImpl.java:57-61 | removes exactly the given id and is a no-op when the id is absent; every other entry is unchanged |
| ProductCore.GetAfterCreate | microservices/product-service/src/main/java/com/example/microservices/core/product/services/ProductServiceImpl.java:25-54 | a product just created reads back with its own id, name and weight and the reader's address |
| ProductCore.DeleteIdempotent | microservices/product-service/src/main/java/com/example/microservices/core/product/services/ProductServiceImpl.java:60 | deleting twice equals deleting once, and afterwards the product reads as NotFound |
| ProductCore.ProcessEvent | microservices/product-service/src/main/java/com/example/microservices/core/product/services/MessageProcessor.java:24-41 | as written: a CREATE applies createProduct and completes iff that succeeds. A failed CREATE carries `Create`'s own error. A CREATE with null data fails with a null dereference and changes nothing. A DELETE removes the key and still fails |
| ProductCore.ProcessEventIntended | microservices/product-service/src/main/java/com/example/microservices/core/product/services/MessageProcessor.java:31-35 | with the missing `break` restored, a DELETE removes the key and completes; a CREATE behaves as written |
| ProductCore.DeleteEventFallsThrough | microservices/product-service/src/main/java/com/example/microservices/core/product/services/MessageProcessor.java:31-40 | every DELETE removes its product and then fails with EventProcessing carrying the "Incorrect event type: DELETE, expected a CREATE or DELETE event" message |
| ProductCore.DeleteScenarioAsWritten | microservices/product-service/src/test/java/com/example/microservices/core/product/ProductServiceApplicationTests.java:88-99 | the test's create, delete, delete sequence against the code as written leaves the right store, but both deletes fail |
| ProductCore.DeleteScenarioIntended | microservices/product-service/src/test/java/com/example/microservices/core/product/ProductServiceApplicationTests.java:88-99 | the same sequence against the intended consumer: every step completes and the product is gone |
| ProductCore.DeleteRedeliveredIntended | microservices/product-service/src/test/java/com/example/microservices/core/product/ProductServiceApplicationTests.java:95-98 | a redelivered DELETE completes and changes nothing |
| ProductCore.CreateRedelivered | microservices/product-service/src/test/java/com/example/microservices/core/product/ProductServiceApplicationTests.java:65-86 | a redelivered CREATE is rejected with "Duplicate key, Product Id: X"; exactly one product was added |
| ProductCore.ProductService.CreateProduct | microservices/product-service/src/main/java/com/example/microservices/core/product/services/ProductServiceImpl.java:25-35 | new store and result are those of `Create` on the old store |
| ProductCore.ProductService.GetProduct | microservices/product-service/src/main/java/com/example/microservices/core/product/services/ProductServiceImpl.java:39-54 | answers `Get` on the current store and leaves it unchanged |
| ProductCore.ProductService.DeleteProduct | microservices/product-service/src/main/java/com/example/microservices/core/product/services/ProductServiceImpl.java:57-61 | the new store is `Delete` of the old one |
| ProductCore.MessageProcessor.Process | microservices/product-service/src/main/java/com/example/microservices/core/product/services/MessageProcessor.java:21-44 | new store and outcome are those of `ProcessEvent` (the code as written) |
| ProductCore.MessageProcessor.ProcessIntended | microservices/product-service/src/main/java/com/example/microservices/core/product/services/MessageProcessor.java:21-44 | new store and outcome are those of `ProcessEventIntended` |
| RecommendationCore.MapperRoundTrip | microservices/recommendation-service/src/test/java/com/example/microservices/core/recommendation/MapperTests.java:21-38 | `rate` is stored as `rating`; api to entity to api keeps every field and the address comes back null |
| RecommendationCore.Create | microservices/recommendation-service/src/main/java/com/example/microservices/core/recommendation/services/RecommendationServiceImpl.java:24-42 | succeeds iff (productId, recommendationId) is not stored, and then appends exactly that entity. Otherwise the result is InvalidInput "Duplicate key, Product Id: X, Recommendation Id: Y" and the store is unchanged. The index stays unique |
| RecommendationCore.ForProduct | microservices/recommendation-service/src/main/java/com/example/microservices/core/recommendation/services/RecommendationServiceImpl.java:50 | an entry is returned iff it is stored under that product |
| RecommendationCore.ForProductMultiplicity | microservices/recommendation-service/src/main/java/com/example/microservices/core/recommendation/services/RecommendationServiceImpl.java:50 | each stored entry of the product is returned as many times as it is stored, and no entry of another product is returned |
| RecommendationCore.WithoutProduct | microservices/recommendation-service/src/main/java/com/example/microservices/core/recommendation/services/RecommendationServiceImpl.java:66 | an entry is kept iff it is stored under another product |
| RecommendationCore.WithoutFilterUnique | microservices/recommendation-service/src/main/java/com/example/microservices/core/recommendation/services/RecommendationServiceImpl.java:66 | removing a product's entries keeps the index unique |
| RecommendationCore.Delete | microservices/recommendation-service/src/main/java/com/example/microservices/core/recommendation/services/RecommendationServiceImpl.java:59-67 | never fails and keeps the index unique |
| RecommendationCore.ForProductAppend | microservices/recommendation-service/src/main/java/com/example/microservices/core/recommendation/services/RecommendationServiceImpl.java:50 | an appended entry comes last in its own product's list and leaves other products' lists alone |
| RecommendationCore.WithoutAppend | microservices/recommendation-service/src/main/java/com/example/microservices/core/recommendation/services/RecommendationServiceImpl.java:66 | an appended entry of another product survives the product's delete, at the end |
| RecommendationCore.HasKeyAppend | microservices/recommendation-service/src/main/java/com/example/microservices/core/recommendation/services/RecommendationServiceImpl.java:28 | appending an entry adds exactly its key to the keys present |
| RecommendationCore.GetAfterCreate | microservices/recommendation-service/src/main/java/com/example/microservices/core/recommendation/services/RecommendationServiceImpl.java:24-57 | a fresh recommendation reads back as the last entry of its product's list, with the reader's address; the list grows by one |
| RecommendationCore.GetReturnsExactlyThatProduct | microservices/recommendation-service/src/main/java/com/example/microservices/core/recommendation/services/RecommendationServiceImpl.java:44-57 | for a valid id, each returned entry is stored under that product and carries the reader's address, and each stored entry of the product is returned |
| RecommendationCore.Get | microservices/recommendation-service/src/main/java/com/example/microservices/core/recommendation/services/RecommendationServiceImpl.java:44-57 | fails iff the id is below 1, and then with InvalidInput "Invalid productId: X". Otherwise every returned recommendation has the requested productId and this instance's address |
| RecommendationCore.GetWithNoEntries | microservices/recommendation-service/src/test/java/com/example/microservices/core/recommendation/RecommendationServiceApplicationTests.java:110-114 | a valid id with nothing stored reads as an empty list, not an error |
| RecommendationCore.ForProductOfWithout | microservices/recommendation-service/src/main/java/com/example/microservices/core/recommendation/services/RecommendationServiceImpl.java:66 | after removing a product's entries, that product has none left and every other product's list is unchanged |
| RecommendationCore.WithoutIdempotent | microservices/recommendation-service/src/main/java/com/example/microservices/core/recommendation/services/RecommendationServiceImpl.java:66 | removing a product's entries twice equals removing them once |
| RecommendationCore.DeleteEffect | microservices/recommendation-service/src/main/java/com/example/microservices/core/recommendation/services/RecommendationServiceImpl.java:59-67 | delete leaves nothing of its product, keeps every other product's list as it was, and a second delete changes nothing |
| RecommendationCore.ProcessEvent | microservices/recommendation-service/src/main/java/com/example/microservices/core/recommendation/services/MessageProcessor.java:24-43 | a DELETE deletes the product's entries and completes. A CREATE with data changes the store as `Create` does, completes iff `Create` succeeds and otherwise fails with `Create`'s own error (the duplicate-key InvalidInput). A CREATE with null data fails with a null dereference and changes nothing. The index stays unique |
| RecommendationCore.ProcessAll | microservices/recommendation-service/src/main/java/com/example/microservices/core/recommendation/services/MessageProcessor.java:21-46 | consuming any sequence of events, in any order, keeps the unique index |
| RecommendationCore.CreateRedelivered | microservices/recommendation-service/src/test/java/com/example/microservices/core/recommendation/RecommendationServiceApplicationTests.java:64-87 | a CREATE delivered twice stores exactly one entry, and the second delivery fails with the duplicate-key message |
| RecommendationCore.DuplicateMessageOfTest | microservices/recommendation-service/src/test/java/com/example/microservices/core/recommendation/RecommendationServiceApplicationTests.java:79-80 | for product 1 and recommendation 1 the message is "Duplicate key, Product Id: 1, Recommendation Id: 1" |
| RecommendationCore.DeleteRedelivered | microservices/recommendation-service/src/test/java/com/example/microservices/core/recommendation/RecommendationServiceApplicationTests.java:89-101 | a DELETE delivered twice completes both times, leaves no entry of the product, and the second delivery changes nothing |
| RecommendationCore.ThreeCreatesScenario | microservices/recommendation-service/src/test/java/com/example/microservices/core/recommendation/RecommendationServiceApplicationTests.java:48-62 | CREATEs for recommendations 1, 2 and 3 of product 1 all complete and read back as three entries, the third being recommendation 3 of product 1 |
| RecommendationCore.RecommendationService.CreateRecommendation | microservices/recommendation-service/src/main/java/com/example/microservices/core/recommendation/services/RecommendationServiceImpl.java:24-42 | new store and result are those of `Create` |
| RecommendationCore.RecommendationService.GetRecommendations | microservices/recommendation-service/src/main/java/com/example/microservices/core/recommendation/services/RecommendationServiceImpl.java:44-57 | the list built in an array and stamped in place with the address equals `Get` |
| RecommendationCore.RecommendationService.DeleteRecommendations | microservices/recommendation-service/src/main/java/com/example/microservices/core/recommendation/services/RecommendationServiceImpl.java:59-67 | the new store is `Delete` of the old one |
| RecommendationCore.MessageProcessor.Process | microservices/recommendation-service/src/main/java/com/example/microservices/core/recommendation/services/MessageProcessor.java:21-46 | new store and outcome are those of `ProcessEvent` |
| ReviewCore.MapperRoundTrip | microservices/review-service/src/test/java/com/example/microservices/core/review/MapperTests.java:21-38 | api to entity to api keeps every field and the address comes back null |
| ReviewCore.Create | microservices/review-service/src/main/java/com/example/microservices/core/review/services/ReviewServiceImpl.java:24-42 | succeeds iff (productId, reviewId) is not stored, and then appends exactly that entity. Otherwise the result is InvalidInput "Duplicate key, Product Id: X, Review Id: Y" and the store is unchanged. The index stays unique |
| ReviewCore.ForProduct | microservices/review-service/src/main/java/com/example/microservices/core/review/services/ReviewServiceImpl.java:50 | an entry is returned iff it is stored under that product |
| ReviewCore.ForProductMultiplicity | microservices/review-service/src/main/java/com/example/microservices/core/review/services/ReviewServiceImpl.java:50 | each stored entry of the product is returned as many times as it is stored, and no entry of another product is returned |
| ReviewCore.WithoutProduct | microservices/review-service/src/main/java/com/example/microservices/core/review/services/ReviewServiceImpl.java:66 | an entry is kept iff it is stored under another product |
| ReviewCore.WithoutFilterUnique | microservices/review-service/src/main/java/com/example/microservices/core/review/services/ReviewServiceImpl.java:66 | removing a product's entries keeps the index unique |
| ReviewCore.Delete | microservices/review-service/src/main/java/com/example/microservices/core/review/services/ReviewServiceImpl.java:59-67 | never fails and keeps the index unique |
| ReviewCore.ForProductAppend | microservices/review-service/src/main/java/com/example/microservices/core/review/services/ReviewServiceImpl.java:50 | an appended entry comes last in its own product's list and leaves other products' lists alone |
| ReviewCore.WithoutAppend | microservices/review-service/src/main/java/com/example/microservices/core/review/services/ReviewServiceImpl.java:66 | an appended entry of another product survives the product's delete, at the end |
| ReviewCore.GetAfterCreate | microservices/review-service/src/main/java/com/example/microservices/core/review/services/ReviewServiceImpl.java:24-57 | a fresh review reads back as the last entry of its product's list, with the reader's address |
| ReviewCore.GetReturnsExactlyThatProduct | microservices/review-service/src/main/java/com/example/microservices/core/review/services/ReviewServiceImpl.java:44-57 | for a valid id, each returned entry is stored under that product and carries the reader's address, and each stored entry of the product is returned |
| ReviewCore.Get | microservices/review-service/src/main/java/com/example/microservices/core/review/services/ReviewServiceImpl.java:44-57 | fails iff the id is below 1, and then with InvalidInput "Invalid productId: X". Otherwise every returned review has the requested productId and this instance's address |
| ReviewCore.GetWithNoEntries | microservices/review-service/src/test/java/com/example/microservices/core/review/ReviewServiceApplicationTests.java:114-118 | a valid id with nothing stored reads as an empty list |
| ReviewCore.ForProductOfWithout | microservices/review-service/src/main/java/com/example/microservices/core/review/services/ReviewServiceImpl.java:66 | after removing a product's entries, that product has none left and every other product's list is unchanged |
| ReviewCore.WithoutIdempotent | microservices/review-service/src/main/java/com/example/microservices/core/review/services/ReviewServiceImpl.java:66 | removing a product's entries twice equals removing them once |
| ReviewCore.DeleteEffect | microservices/review-service/src/test/java/com/example/microservices/core/review/ReviewServiceApplicationTests.java:93-105 | delete leaves nothing of its product, keeps other products' lists, and repeating it changes nothing |
| ReviewCore.CreateTwice | microservices/review-service/src/test/java/com/example/microservices/core/review/ReviewServiceApplicationTests.java:66-91 | creating the same review twice stores it once, and the second call fails with the duplicate-key message |
| ReviewCore.DuplicateMessageOfTest | microservices/review-service/src/test/java/com/example/microservices/core/review/ReviewServiceApplicationTests.java:83-84 | for product 1 and review 1 the message is "Duplicate key, Product Id: 1, Review Id: 1" |
| ReviewCore.ReviewService.CreateReview | microservices/review-service/src/main/java/com/example/microservices/core/review/services/ReviewServiceImpl.java:24-42 | new store and result are those of `Create` |
| ReviewCore.ReviewService.GetReviews | microservices/review-service/src/main/java/com/example/microservices/core/review/services/ReviewServiceImpl.java:44-57 | the list built in an array and stamped in place with the address equals `Get` |
| ReviewCore.ReviewService.DeleteReviews | microservices/review-service/src/main/java/com/example/microservices/core/review/services/ReviewServiceImpl.java:59-67 | the new store is `Delete` of the old one |
| CompositeIntegration.InfixReadsBack | microservices/product-composite-service/src/main/java/com/example/microservices/composite/product/services/ProductCompositeIntegration.java:95-97 | a number written between a fixed prefix and any suffix reads back from just after the prefix |
| CompositeIntegration.ProductUrlCarriesId | microservices/product-composite-service/src/main/java/com/example/microservices/composite/product/services/ProductCompositeIntegration.java:95-97 | the product URL starts with "http://product/product/" and the id that follows reads back as the requested id |
| CompositeIntegration.RecommendationsUrlCarriesId | microservices/product-composite-service/src/main/java/com/example/microservices/composite/product/services/ProductCompositeIntegration.java:126 | the URL starts with "http://recommendation/recommendation?productId=" and its rest reads back as the requested id |
| CompositeIntegration.ReviewsUrlCarriesId | microservices/product-composite-service/src/main/java/com/example/microservices/composite/product/services/ProductCompositeIntegration.java:155 | the URL starts with "http://review/review?productId=" and its rest reads back as the requested id |
| CompositeIntegration.ErrorMessage | microservices/product-composite-service/src/main/java/com/example/microservices/composite/product/services/ProductCompositeIntegration.java:203-209 | the `message` of the parsed error body, or the exception's own message when the body does not parse |
| CompositeIntegration.HandleException | microservices/product-composite-service/src/main/java/com/example/microservices/composite/product/services/ProductCompositeIntegration.java:181-201 | 404 becomes NotFound and 422 becomes InvalidInput, both carrying the extracted message. Every other status (taken to be an `HttpStatus` constant), and every error that is not an HTTP response, is returned unchanged |
| CompositeIntegration.HandleExceptionIdempotent | microservices/product-composite-service/src/main/java/com/example/microservices/composite/product/services/ProductCompositeIntegration.java:181-201 | translating an already translated error changes nothing |
| CompositeIntegration.NotFoundKeepsDownstreamMessage | microservices/product-composite-service/src/main/java/com/example/microservices/composite/product/services/ProductCompositeIntegration.java:189-209 | a 404 whose body is an error envelope becomes NotFound with the envelope's message |
| CompositeIntegration.ProductLeg | microservices/product-composite-service/src/main/java/com/example/microservices/composite/product/services/ProductCompositeIntegration.java:101-107 | a successful answer, empty or not, passes through unchanged; an error is replaced by its translation; the leg fails iff the response failed |
| CompositeIntegration.BestEffort | microservices/product-composite-service/src/main/java/com/example/microservices/composite/product/services/ProductCompositeIntegration.java:131-136 | the leg never fails; it yields exactly the elements that arrived, whether the response completed or ended in an error |
| CompositeIntegration.SentBeforeFault | microservices/product-composite-service/src/main/java/com/example/microservices/composite/product/services/ProductCompositeServiceImpl.java:39-49 | the number of consecutive sends that go through before the first that throws: every send before it goes through, and the one at it, if any is left, throws |
| CompositeIntegration.Integration.CreateProduct | microservices/product-composite-service/src/main/java/com/example/microservices/composite/product/services/ProductCompositeIntegration.java:83-89 | appends one CREATE keyed by the body's productId and carrying the body to the products channel only, and returns the body. When the send at the channel's current position is a fault, it throws that exception and nothing is sent |
| CompositeIntegration.Integration.DeleteProduct | microservices/product-composite-service/src/main/java/com/example/microservices/composite/product/services/ProductCompositeIntegration.java:110-114 | appends one DELETE keyed by the id with null data to the products channel only. When the send at the channel's current position is a fault, it throws that exception and nothing is sent |
| CompositeIntegration.Integration.CreateRecommendation | microservices/product-composite-service/src/main/java/com/example/microservices/composite/product/services/ProductCompositeIntegration.java:116-122 | appends one CREATE keyed by the body's productId to the recommendations channel only, and returns the body. When the send at the channel's current position is a fault, it throws that exception and nothing is sent |
| CompositeIntegration.Integration.DeleteRecommendations | microservices/product-composite-service/src/main/java/com/example/microservices/composite/product/services/ProductCompositeIntegration.java:139-143 | appends one DELETE keyed by the id with null data to the recommendations channel only. When the send at the channel's current position is a fault, it throws that exception and nothing is sent |
| CompositeIntegration.Integration.CreateReview | microservices/product-composite-service/src/main/java/com/example/microservices/composite/product/services/ProductCompositeIntegration.java:145-151 | appends one CREATE keyed by the body's productId to the reviews channel only, and returns the body. When the send at the channel's current position is a fault, it throws that exception and nothing is sent |
| CompositeIntegration.Integration.DeleteReviews | microservices/product-composite-service/src/main/java/com/example/microservices/composite/product/services/ProductCompositeIntegration.java:168-172 | appends one DELETE keyed by the id with null data to the reviews channel only. When the send at the channel's current position is a fault, it throws that exception and nothing is sent |
| CompositeIntegration.Integration.GetWebClient | microservices/product-composite-service/src/main/java/com/example/microservices/composite/product/services/ProductCompositeIntegration.java:174-179 | builds a client on the first call only, and every later call returns that same instance; at most one client is ever built |
| CompositeIntegration.Integration.GetProduct | microservices/product-composite-service/src/main/java/com/example/microservices/composite/product/services/ProductCompositeIntegration.java:91-108 | requests the expanded product URL and answers `ProductLeg` of the response |
| CompositeIntegration.Integration.GetRecommendations | microservices/product-composite-service/src/main/java/com/example/microservices/composite/product/services/ProductCompositeIntegration.java:124-137 | requests the recommendation URL and answers `BestEffort` of the response |
| CompositeIntegration.Integration.GetReviews | microservices/product-composite-service/src/main/java/com/example/microservices/composite/product/services/ProductCompositeIntegration.java:153-166 | requests the review URL and answers `BestEffort` of the response |
| CompositeService.RecommendationCommandsOf | microservices/product-composite-service/src/main/java/com/example/microservices/composite/product/services/ProductCompositeServiceImpl.java:38-50 | one command per summary, in list order. Each takes the aggregate's productId, keeps the summary's id, author, rate and content, and has a null address |
| CompositeService.ReviewCommandsOf | microservices/product-composite-service/src/main/java/com/example/microservices/composite/product/services/ProductCompositeServiceImpl.java:52-64 | one command per summary, in list order. Each takes the aggregate's productId, keeps the summary's id, author, subject and content, and has a null address |
| CompositeService.ProductEventOfAggregate | microservices/product-composite-service/src/main/java/com/example/microservices/composite/product/services/ProductCompositeServiceImpl.java:35-36 | the product event is a CREATE keyed by the aggregate's id, carrying its id, name and weight and a null address |
| CompositeService.RecommendationEventsOfAggregate | microservices/product-composite-service/src/main/java/com/example/microservices/composite/product/services/ProductCompositeServiceImpl.java:38-50 | one CREATE per recommendation summary, in order, keyed by the aggregate's id; a null list gives none |
| CompositeService.ReviewEventsOfAggregate | microservices/product-composite-service/src/main/java/com/example/microservices/composite/product/services/ProductCompositeServiceImpl.java:52-64 | one CREATE per review summary, in order, keyed by the aggregate's id; a null list gives none |
| CompositeService.RecommendationSummaries | microservices/product-composite-service/src/main/java/com/example/microservices/composite/product/services/ProductCompositeServiceImpl.java:118-126 | same length and order as the input; element i keeps the id, author, rate and content of input i |
| CompositeService.ReviewSummaries | microservices/product-composite-service/src/main/java/com/example/microservices/composite/product/services/ProductCompositeServiceImpl.java:129-137 | same length and order as the input; element i keeps the id, author, subject and content of input i |
| CompositeService.SummariesOfCommands | microservices/product-composite-service/src/main/java/com/example/microservices/composite/product/services/ProductCompositeServiceImpl.java:38-50 | summarising the commands built from a list of summaries gives back that list |
| CompositeService.Assemble | microservices/product-composite-service/src/main/java/com/example/microservices/composite/product/services/ProductCompositeServiceImpl.java:106-160 | id, name and weight are copied from the product, and each summary list is null iff its input is. The addresses are: cmp the composite's own, pro the product's, rev and rec the first element's address, or "" for a null or empty list |
| CompositeService.Compose | microservices/product-composite-service/src/main/java/com/example/microservices/composite/product/services/ProductCompositeServiceImpl.java:76-91 | the read fails iff the product leg fails, and then with that leg's translated error. An empty product leg gives an empty answer. Otherwise the answer is the product assembled with what the other two legs delivered |
| CompositeService.FailedLegsDegrade | microservices/product-composite-service/src/main/java/com/example/microservices/composite/product/services/ProductCompositeServiceImpl.java:76-91 | a found product whose other two legs failed gives empty, non-null lists and "" for their two addresses |
| CompositeService.NotFoundPropagates | microservices/product-composite-service/src/main/java/com/example/microservices/composite/product/services/ProductCompositeServiceImpl.java:78-88 | a 404 from the product service makes the composite read fail with NotFound and the product service's own message |
| CompositeService.CreatesAppendInOrder | microservices/recommendation-service/src/main/java/com/example/microservices/core/recommendation/services/MessageProcessor.java:25-30 | consuming CREATEs for fresh, distinct keys of one product appends their entities to that product's entries, in order |
| CompositeService.WriteThenReadRecommendations | microservices/product-composite-service/src/main/java/com/example/microservices/composite/product/services/ProductCompositeServiceImpl.java:38-50 | an aggregate's recommendation events, consumed by a store holding nothing for the product, read back as the same summaries. Each returned entry carries the product id and the reader's address |
| CompositeService.CreateSendsDoneIffNoFault | microservices/product-composite-service/src/main/java/com/example/microservices/composite/product/services/ProductCompositeServiceImpl.java:27-74 | a composite write completes iff none of its sends throws, and then the product event and every recommendation and review event of the aggregate have gone out |
| CompositeService.CreateSendsInOrder | microservices/product-composite-service/src/main/java/com/example/microservices/composite/product/services/ProductCompositeServiceImpl.java:27-74 | whichever send throws, each channel receives a prefix of the aggregate's events for it; recommendations go out only after the product event, and reviews only after every recommendation |
| CompositeService.ProductCompositeService.CreateCompositeProduct | microservices/product-composite-service/src/main/java/com/example/microservices/composite/product/services/ProductCompositeServiceImpl.java:27-74 | each channel grows by exactly what `CreateSends` says for the channels' faults: the product event, then the recommendation events, then the review events, up to the first send that throws, whose exception is rethrown unchanged. What was sent before it, including part of a list, stays sent |
| CompositeService.ProductCompositeService.CreateRecommendations | microservices/product-composite-service/src/main/java/com/example/microservices/composite/product/services/ProductCompositeServiceImpl.java:38-50 | sends the recommendation events in list order. If the k-th send throws, the first k-1 events stay on the channel and that send's exception is the outcome; otherwise all are sent and it completes |
| CompositeService.ProductCompositeService.CreateReviews | microservices/product-composite-service/src/main/java/com/example/microservices/composite/product/services/ProductCompositeServiceImpl.java:52-64 | sends the review events in list order. If the k-th send throws, the first k-1 events stay on the channel and that send's exception is the outcome; otherwise all are sent and it completes |
| CompositeService.ProductCompositeService.GetCompositeProduct | microservices/product-composite-service/src/main/java/com/example/microservices/composite/product/services/ProductCompositeServiceImpl.java:76-91 | calls the three legs and answers `Compose` of what they delivered |
| CompositeService.ProductCompositeService.DeleteCompositeProduct | microservices/product-composite-service/src/main/java/com/example/microservices/composite/product/services/ProductCompositeServiceImpl.java:93-104 | sends a DELETE for the same id to products, then recommendations, then reviews. A send that throws stops the rest |

## Left out

- CompositeIntegration.BestEffort: keeps the elements a failing response delivered before its error, because `onErrorResume(error -> empty())` does, whereas the comment at ProductCompositeIntegration.java:130 and :159 speaks of an empty result when something goes wrong. An error before the first element gives an empty list.
- CompositeIntegration.HandleException: statuses are assumed to be constants of Spring's `HttpStatus` enum. For any other code (a 520, say), `getStatusCode()` at ProductCompositeIntegration.java:189 throws IllegalArgumentException out of the `onErrorMap` mapper, so the product leg fails with that exception. The model instead returns such a response unchanged.
- Reactive scheduling. `Mono.zip`'s parallel subscription, `.log()` and the product leg's `.timeout(...)` are concurrency and clock behaviour. A timeout reaches the model as an error on the product leg's input.
- Retry and circuit breaker exist only as annotations on `getProduct`. Their behaviour lives in a library that is not part of this model.
- HTTP and messaging transport. WebClient responses are method inputs: a `Result` for the product, and a `Stream` of delivered elements plus an optional error for the other two legs. Jackson's parsing of an error body is a function parameter. Which `send` throws is given, per channel, as a map from the position the event would take on that channel to the exception; it is fixed when the `Integration` is built, so a send can fail in the middle of a list while the ones before it went out.
- CompositeService.ProductCompositeService.GetCompositeProduct: asks for the product with delay 0 and fault percent 0. `getCompositeProduct` calls a one-argument `getProduct(productId)`, which the three-argument `ProductCompositeIntegration.getProduct` of the same revision does not declare.
- `ProductService.getProduct` is declared to return `Mono<Product>`, while `ProductServiceImpl.getProduct` returns a `Product`. The implementation is modelled.
- `Review` declares no setter, while `ReviewServiceImpl.getReviews` calls `setServiceAddress`. The model builds each returned review with the address set.
- Persistence internals: generated document ids, optimistic-locking versions, and how the repository detects a duplicate (the exception type differs between the services). Only the unique index, insertion order and find/insert/delete by productId are modelled.
- Event and error-body timestamps are clock readings.
- `null` in text fields (name, author, subject, content) is not modelled. Only the addresses, the summary lists and event data are nullable.
- The elements of the summary lists are never `null` here. A `null` element would make `r.getRecommendationId()` or `r.getReviewId()` throw NullPointerException inside the `forEach` at ProductCompositeServiceImpl.java:39-49 and :53-63, after the product event (and, in the `forEach` cases, every earlier list event) had been sent, and likewise inside the `map` at :119-126.
- An event with a `null` key would fail when the key is unboxed. Keys are plain ints here.
- An event with a `null` type makes `switch (event.getEventType())` throw NullPointerException in both consumers (MessageProcessor.java:24). `Event`'s type is always CREATE or DELETE here, so that case is not modelled.
- Java `int` is 32-bit; ids are unbounded here. No modelled code does arithmetic on them, so only the range differs.
- The review-service `MessageProcessor` is not part of this model. `ReviewCore` models `ReviewServiceImpl`, which it would call.
- Health contributors, security configuration, application bootstrap, API interfaces and logging.

## Findings

| source | as written | input that shows it | evidently intended | confidence | as-written member | corrected member |
|---|---|---|---|---|---|---|
| microservices/product-service/src/main/java/com/example/microservices/core/product/services/MessageProcessor.java:31-40 | the DELETE case has no `break`. After `deleteProduct(key)` it falls into `default` and throws EventProcessingException "Incorrect event type: DELETE, expected a CREATE or DELETE event" | a CREATE for product 1, then a DELETE for product 1 (the test at ProductServiceApplicationTests.java:88-99, which expects no exception) | a `break` after the delete, so the DELETE completes; the recommendation consumer has one | high, not executed | ProductCore.DeleteScenarioAsWritten | ProductCore.DeleteScenarioIntended |
