/** product-service: ProductServiceImpl over a store in which `productId` is
    unique, its mapper, and the MessageProcessor that applies CREATE/DELETE
    events from the products channel. */
module ProductCore {
  import opened Util
  import opened Api
  import opened Events
  import Decimal

  /** ProductEntity without its generated id and optimistic-locking version. */
  datatype ProductEntity = ProductEntity(productId: int, name: string, weight: int)

  /** ProductMapper.apiToEntity: `serviceAddress` has no column and is dropped. */
  function ApiToEntity(p: Product): ProductEntity
  {
    ProductEntity(p.productId, p.name, p.weight)
  }

  /** ProductMapper.entityToApi: the address is left `null`. */
  function EntityToApi(e: ProductEntity): Product
  {
    Product(e.productId, e.name, e.weight, None)
  }

  /** api -> entity -> api keeps every field except the address, which comes back `null`. */
  lemma MapperRoundTrip(p: Product)
    ensures EntityToApi(ApiToEntity(p)) == p.(serviceAddress := None)
  {
  }

  /** The repository: the unique index on `productId` makes it a map keyed by that id. */
  type Store = map<int, ProductEntity>

  predicate Keyed(store: Store)
  {
    forall id :: id in store ==> store[id].productId == id
  }

  function DuplicateKeyMessage(productId: int): string
  {
    "Duplicate key, Product Id: " + Decimal.IntToString(productId)
  }

  function InvalidProductIdMessage(productId: int): string
  {
    "Invalid productId: " + Decimal.IntToString(productId)
  }

  function NotFoundMessage(productId: int): string
  {
    "No product found for productId: " + Decimal.IntToString(productId)
  }

  /** createProduct: `save` under the unique index; a DuplicateKeyException becomes
      an InvalidInputException and nothing is written. */
  function Create(store: Store, body: Product): (res: (Store, Result<Product>))
    requires Keyed(store)
    ensures Keyed(res.0)
    ensures res.1.Ok? <==> body.productId !in store
    ensures res.0.Keys == store.Keys + {body.productId}
    ensures forall id :: id in store ==> res.0[id] == store[id]
    ensures res.1.Ok? ==> res.0[body.productId] == ApiToEntity(body) && res.1.value == EntityToApi(ApiToEntity(body))
    ensures res.1.Err? ==> res.1.error == InvalidInput(DuplicateKeyMessage(body.productId))
  {
    if body.productId in store then (store, Err(InvalidInput(DuplicateKeyMessage(body.productId))))
    else
      var entity := ApiToEntity(body);
      (store[body.productId := entity], Ok(EntityToApi(entity)))
  }

  /** getProduct: ids below 1 are refused before the lookup; a found product is
      answered with this instance's address. */
  function Get(store: Store, serviceAddress: string, productId: int): (r: Result<Product>)
    requires Keyed(store)
    ensures r.Ok? <==> productId >= 1 && productId in store
    ensures productId < 1 ==> r == Err(InvalidInput(InvalidProductIdMessage(productId)))
    ensures productId >= 1 && productId !in store ==> r == Err(NotFound(NotFoundMessage(productId)))
    ensures r.Ok? ==> r.value.productId == productId && r.value.serviceAddress == Some(serviceAddress)
                      && r.value.name == store[productId].name && r.value.weight == store[productId].weight
  {
    if productId < 1 then Err(InvalidInput(InvalidProductIdMessage(productId)))
    else if productId !in store then Err(NotFound(NotFoundMessage(productId)))
    else Ok(EntityToApi(store[productId]).(serviceAddress := Some(serviceAddress)))
  }

  /** deleteProduct: `findByProductId(..).ifPresent(delete)`; a missing id is a no-op. */
  function Delete(store: Store, productId: int): (s: Store)
    requires Keyed(store)
    ensures Keyed(s)
    ensures s.Keys == store.Keys - {productId}
    ensures forall id :: id in s ==> s[id] == store[id]
  {
    store - {productId}
  }

  /** A product that was just created reads back with its own fields and the reader's address. */
  lemma {:induction false} GetAfterCreate(store: Store, body: Product, serviceAddress: string)
    requires Keyed(store) && body.productId >= 1 && body.productId !in store
    ensures Get(Create(store, body).0, serviceAddress, body.productId)
         == Ok(Product(body.productId, body.name, body.weight, Some(serviceAddress)))
  {
  }

  /** Deleting twice is the same as deleting once, and afterwards the product is not found. */
  lemma DeleteIdempotent(store: Store, productId: int, serviceAddress: string)
    requires Keyed(store) && productId >= 1
    ensures Delete(Delete(store, productId), productId) == Delete(store, productId)
    ensures Get(Delete(store, productId), serviceAddress, productId) == Err(NotFound(NotFoundMessage(productId)))
  {
  }

  // ----- MessageProcessor -----

  /** `process` exactly as written: the DELETE case has no `break`, so after deleting it
      falls into `default` and throws EventProcessingException. A CREATE without data
      throws NullPointerException when its id is logged, before the service is called. */
  function ProcessEvent(store: Store, event: Event<Product>): (res: (Store, Outcome))
    requires Keyed(store)
    ensures Keyed(res.0)
    ensures event.eventType == DELETE ==> res.0 == Delete(store, event.key) && res.1.Failed?
    ensures event.eventType == CREATE && event.data.Some? ==>
              res.0 == Create(store, event.data.value).0
              && (res.1 == Done <==> Create(store, event.data.value).1.Ok?)
              && (res.1.Failed? ==> res.1 == Failed(Create(store, event.data.value).1.error))
    ensures event.eventType == CREATE && event.data.None? ==> res == (store, Failed(NullReference))
  {
    match event.eventType
    case CREATE =>
      (match event.data
       case None => (store, Failed(NullReference))
       case Some(product) =>
         var (s, r) := Create(store, product);
         (s, if r.Ok? then Done else Failed(r.error)))
    case DELETE =>
      (Delete(store, event.key), Failed(EventProcessing(IncorrectEventTypeMessage(event.eventType))))
  }

  /** `process` as its tests expect it: a `break` after the DELETE case. */
  function ProcessEventIntended(store: Store, event: Event<Product>): (res: (Store, Outcome))
    requires Keyed(store)
    ensures Keyed(res.0)
    ensures event.eventType == DELETE ==> res == (Delete(store, event.key), Done)
    ensures event.eventType == CREATE ==> res == ProcessEvent(store, event)
  {
    match event.eventType
    case CREATE => ProcessEvent(store, event)
    case DELETE => (Delete(store, event.key), Done)
  }

  /** As written, every DELETE event removes its product and then fails with the
      "Incorrect event type" message. */
  lemma DeleteEventFallsThrough(store: Store, productId: int)
    requires Keyed(store)
    ensures ProcessEvent(store, Event(DELETE, productId, None))
         == (store - {productId},
             Failed(EventProcessing(IncorrectEventTypeMessage(DELETE))))
  {
  }

  /** The test `deleteProduct` (create 1, delete 1, delete 1, expecting no exception)
      against the code as written: the store ends up right, but both deletes throw. */
  lemma {:induction false} DeleteScenarioAsWritten(product: Product)
    requires product.productId == 1
    ensures var (s1, o1) := ProcessEvent(map[], Event(CREATE, 1, Some(product)));
            var (s2, o2) := ProcessEvent(s1, Event(DELETE, 1, None));
            var (s3, o3) := ProcessEvent(s2, Event(DELETE, 1, None));
            o1 == Done && 1 in s1 && 1 !in s2 && s3 == s2 && o2.Failed? && o3.Failed?
  {
  }

  /** The same scenario against the intended consumer: every step succeeds. */
  lemma {:induction false} DeleteScenarioIntended(product: Product)
    requires product.productId == 1
    ensures var (s1, o1) := ProcessEventIntended(map[], Event(CREATE, 1, Some(product)));
            var (s2, o2) := ProcessEventIntended(s1, Event(DELETE, 1, None));
            var (s3, o3) := ProcessEventIntended(s2, Event(DELETE, 1, None));
            o1 == Done && 1 in s1 && o2 == Done && 1 !in s2 && o3 == Done && s3 == s2
  {
  }

  /** Redelivery of a DELETE to the intended consumer: the second delivery succeeds
      and changes nothing. */
  lemma DeleteRedeliveredIntended(store: Store, productId: int)
    requires Keyed(store)
    ensures var (s1, o1) := ProcessEventIntended(store, Event(DELETE, productId, None));
            var (s2, o2) := ProcessEventIntended(s1, Event(DELETE, productId, None));
            o1 == Done && o2 == Done && s2 == s1 && productId !in s1
  {
  }

  /** Redelivery of a CREATE: the second delivery is rejected with the duplicate-key
      message and the one stored product is kept as it was. */
  lemma CreateRedelivered(store: Store, product: Product)
    requires Keyed(store) && product.productId !in store
    ensures var (s1, o1) := ProcessEvent(store, Event(CREATE, product.productId, Some(product)));
            var (s2, o2) := ProcessEvent(s1, Event(CREATE, product.productId, Some(product)));
            o1 == Done && |s1| == |store| + 1 && s2 == s1
            && o2 == Failed(InvalidInput(DuplicateKeyMessage(product.productId)))
  {
  }

  /** ProductServiceImpl: the repository and this instance's address. */
  class ProductService {
    var store: Store
    const serviceAddress: string

    ghost predicate Valid()
      reads this
    {
      Keyed(store)
    }

    constructor (serviceAddress: string)
      ensures Valid() && store == map[] && this.serviceAddress == serviceAddress
    {
      store := map[];
      this.serviceAddress := serviceAddress;
    }

    method CreateProduct(body: Product) returns (r: Result<Product>)
      requires Valid()
      modifies this
      ensures Valid()
      ensures (store, r) == Create(old(store), body)
    {
      var entity := ApiToEntity(body);
      if entity.productId in store {
        r := Err(InvalidInput(DuplicateKeyMessage(body.productId)));
      } else {
        store := store[entity.productId := entity];
        r := Ok(EntityToApi(entity));
      }
    }

    method GetProduct(productId: int) returns (r: Result<Product>)
      requires Valid()
      ensures r == Get(store, serviceAddress, productId)
    {
      if productId < 1 {
        return Err(InvalidInput(InvalidProductIdMessage(productId)));
      }
      if productId !in store {
        return Err(NotFound(NotFoundMessage(productId)));
      }
      var response := EntityToApi(store[productId]);
      r := Ok(response.(serviceAddress := Some(serviceAddress)));
    }

    method DeleteProduct(productId: int)
      requires Valid()
      modifies this
      ensures Valid()
      ensures store == Delete(old(store), productId)
    {
      if productId in store {
        store := store - {productId};
      }
    }
  }

  /** The product consumer, wired to the service it calls. */
  class MessageProcessor {
    const productService: ProductService

    constructor (productService: ProductService)
      ensures this.productService == productService
    {
      this.productService := productService;
    }

    /** `process` as written, DELETE fall-through included. */
    method Process(event: Event<Product>) returns (r: Outcome)
      requires productService.Valid()
      modifies productService
      ensures productService.Valid()
      ensures (productService.store, r) == ProcessEvent(old(productService.store), event)
    {
      match event.eventType {
        case CREATE =>
          if event.data.None? {
            return Failed(NullReference);
          }
          var created := productService.CreateProduct(event.data.value);
          r := if created.Ok? then Done else Failed(created.error);
        case DELETE =>
          productService.DeleteProduct(event.key);
          r := Failed(EventProcessing(IncorrectEventTypeMessage(event.eventType)));
      }
    }

    /** `process` with the missing `break` restored. */
    method ProcessIntended(event: Event<Product>) returns (r: Outcome)
      requires productService.Valid()
      modifies productService
      ensures productService.Valid()
      ensures (productService.store, r) == ProcessEventIntended(old(productService.store), event)
    {
      match event.eventType {
        case CREATE =>
          r := Process(event);
        case DELETE =>
          productService.DeleteProduct(event.key);
          r := Done;
      }
    }
  }
}
