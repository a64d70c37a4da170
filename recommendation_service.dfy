/** recommendation-service: RecommendationServiceImpl over a store in which the
    pair (productId, recommendationId) is unique, its mapper, and the
    MessageProcessor that applies events from the recommendations channel. */
module RecommendationCore {
  import opened Util
  import opened Api
  import opened Events
  import Decimal

  /** RecommendationEntity without its generated id and version; the API's `rate` is stored as `rating`. */
  datatype RecommendationEntity = RecommendationEntity(
    productId: int, recommendationId: int, author: string, rating: int, content: string)

  /** RecommendationMapper.apiToEntity. */
  function ApiToEntity(r: Recommendation): RecommendationEntity
  {
    RecommendationEntity(r.productId, r.recommendationId, r.author, r.rate, r.content)
  }

  /** RecommendationMapper.entityToApi: the address is left `null`. */
  function EntityToApi(e: RecommendationEntity): Recommendation
  {
    Recommendation(e.productId, e.recommendationId, e.author, e.rating, e.content, None)
  }

  /** api -> entity -> api maps rate to rating and back, keeps the other fields and
      drops the address to `null`. */
  lemma MapperRoundTrip(r: Recommendation)
    ensures ApiToEntity(r).rating == r.rate
    ensures EntityToApi(ApiToEntity(r)) == r.(serviceAddress := None)
  {
  }

  /** The repository's documents in insertion order, which is the order
      `findByProductId` returns them in. */
  type Store = seq<RecommendationEntity>

  predicate SameKey(a: RecommendationEntity, b: RecommendationEntity)
  {
    a.productId == b.productId && a.recommendationId == b.recommendationId
  }

  /** The compound unique index on (productId, recommendationId). */
  predicate UniqueKeys(s: Store)
  {
    forall i, j :: 0 <= i < j < |s| ==> !SameKey(s[i], s[j])
  }

  predicate HasKey(s: Store, productId: int, recommendationId: int)
  {
    exists i :: 0 <= i < |s| && s[i].productId == productId && s[i].recommendationId == recommendationId
  }

  function DuplicateKeyMessage(productId: int, recommendationId: int): string
  {
    "Duplicate key, Product Id: " + Decimal.IntToString(productId)
    + ", Recommendation Id: " + Decimal.IntToString(recommendationId)
  }

  function InvalidProductIdMessage(productId: int): string
  {
    "Invalid productId: " + Decimal.IntToString(productId)
  }

  /** createRecommendation: `save` under the unique index; a DuplicateKeyException
      becomes an InvalidInputException and nothing is written. */
  function Create(s: Store, body: Recommendation): (res: (Store, Result<Recommendation>))
    requires UniqueKeys(s)
    ensures UniqueKeys(res.0)
    ensures res.1.Ok? <==> !HasKey(s, body.productId, body.recommendationId)
    ensures res.1.Ok? ==> res.0 == s + [ApiToEntity(body)] && res.1.value == EntityToApi(ApiToEntity(body))
    ensures res.1.Err? ==> res.0 == s
                           && res.1.error == InvalidInput(DuplicateKeyMessage(body.productId, body.recommendationId))
  {
    if HasKey(s, body.productId, body.recommendationId) then
      (s, Err(InvalidInput(DuplicateKeyMessage(body.productId, body.recommendationId))))
    else
      var entity := ApiToEntity(body);
      (s + [entity], Ok(EntityToApi(entity)))
  }

  /** `findByProductId`: the entries of one product, in store order. */
  function ForProduct(s: Store, productId: int): (r: Store)
    ensures |r| <= |s|
    ensures forall e :: e in r <==> e in s && e.productId == productId
  {
    if s == [] then []
    else
      var last := s[|s| - 1];
      ForProduct(s[..|s| - 1], productId) + (if last.productId == productId then [last] else [])
  }

  /** `deleteAll(findByProductId(..))`: every entry of other products, in store order. */
  function WithoutProduct(s: Store, productId: int): (r: Store)
    ensures |r| <= |s|
    ensures forall e :: e in r <==> e in s && e.productId != productId
  {
    if s == [] then []
    else
      var last := s[|s| - 1];
      WithoutProduct(s[..|s| - 1], productId) + (if last.productId != productId then [last] else [])
  }

  /** entityListToApiList followed by setting this instance's address on every element. */
  function ToApiList(entities: Store, serviceAddress: string): (r: seq<Recommendation>)
    ensures |r| == |entities|
    ensures forall i :: 0 <= i < |r| ==>
              r[i].productId == entities[i].productId && r[i].serviceAddress == Some(serviceAddress)
  {
    seq(|entities|, i requires 0 <= i < |entities| =>
      EntityToApi(entities[i]).(serviceAddress := Some(serviceAddress)))
  }

  /** getRecommendations: ids below 1 are refused; otherwise the product's entries,
      each carrying this instance's address (an empty list when there are none). */
  function Get(s: Store, serviceAddress: string, productId: int): (r: Result<seq<Recommendation>>)
    ensures r.Err? <==> productId < 1
    ensures productId < 1 ==> r == Err(InvalidInput(InvalidProductIdMessage(productId)))
    ensures r.Ok? ==> forall x :: x in r.value ==> x.productId == productId && x.serviceAddress == Some(serviceAddress)
  {
    if productId < 1 then Err(InvalidInput(InvalidProductIdMessage(productId)))
    else Ok(ToApiList(ForProduct(s, productId), serviceAddress))
  }

  /** deleteRecommendations: never fails; removes exactly the product's entries. */
  function Delete(s: Store, productId: int): (r: Store)
    requires UniqueKeys(s)
    ensures UniqueKeys(r)
  {
    WithoutFilterUnique(s, productId);
    WithoutProduct(s, productId)
  }

  lemma {:induction false} WithoutFilterUnique(s: Store, productId: int)
    requires UniqueKeys(s)
    ensures UniqueKeys(WithoutProduct(s, productId))
  {
    if s != [] {
      var init := s[..|s| - 1];
      var last := s[|s| - 1];
      assert UniqueKeys(init);
      WithoutFilterUnique(init, productId);
      var w := WithoutProduct(init, productId);
      forall i | 0 <= i < |w| ensures !SameKey(w[i], last) {
        assert w[i] in init;
        var k :| 0 <= k < |init| && init[k] == w[i];
        assert s[k] == w[i];
      }
    }
  }

  /** Every entry of the product comes back as often as it is stored, and no other entry does. */
  lemma {:induction false} ForProductMultiplicity(s: Store, productId: int, e: RecommendationEntity)
    ensures multiset(ForProduct(s, productId))[e] == if e.productId == productId then multiset(s)[e] else 0
  {
    if s != [] {
      var init := s[..|s| - 1];
      ForProductMultiplicity(init, productId, e);
      assert s == init + [s[|s| - 1]];
    }
  }

  lemma ForProductAppend(s: Store, e: RecommendationEntity, productId: int)
    ensures ForProduct(s + [e], productId)
         == ForProduct(s, productId) + (if e.productId == productId then [e] else [])
  {
    assert (s + [e])[..|s|] == s;
  }

  /** Appending an entry adds exactly its key to the keys present. */
  lemma HasKeyAppend(s: Store, e: RecommendationEntity, productId: int, recommendationId: int)
    ensures HasKey(s + [e], productId, recommendationId)
        <==> HasKey(s, productId, recommendationId)
             || (e.productId == productId && e.recommendationId == recommendationId)
  {
    var t := s + [e];
    if HasKey(t, productId, recommendationId) {
      var k :| 0 <= k < |t| && t[k].productId == productId && t[k].recommendationId == recommendationId;
      if k < |s| {
        assert s[k] == t[k];
      }
    }
    if HasKey(s, productId, recommendationId) {
      var k :| 0 <= k < |s| && s[k].productId == productId && s[k].recommendationId == recommendationId;
      assert t[k] == s[k];
    }
    if e.productId == productId && e.recommendationId == recommendationId {
      assert t[|s|] == e;
    }
  }

  /** What was created reads back: a fresh entry is the last of its product's list. */
  lemma {:induction false} GetAfterCreate(s: Store, body: Recommendation, serviceAddress: string)
    requires UniqueKeys(s) && body.productId >= 1 && !HasKey(s, body.productId, body.recommendationId)
    ensures var r := Get(Create(s, body).0, serviceAddress, body.productId);
            r.Ok? && |r.value| == |ForProduct(s, body.productId)| + 1
            && r.value[|r.value| - 1] == body.(serviceAddress := Some(serviceAddress))
  {
    ForProductAppend(s, ApiToEntity(body), body.productId);
  }

  /** A valid read returns exactly the product's stored entries: each returned entry
      is stored under that product and carries the reader's address, and each stored
      entry of the product is returned. */
  lemma {:induction false} GetReturnsExactlyThatProduct(s: Store, serviceAddress: string, productId: int)
    requires productId >= 1
    ensures var r := Get(s, serviceAddress, productId);
            && r.Ok?
            && (forall i :: 0 <= i < |r.value| ==>
                  r.value[i].productId == productId && r.value[i].serviceAddress == Some(serviceAddress)
                  && ApiToEntity(r.value[i]) in s)
            && (forall e :: e in s && e.productId == productId ==>
                  EntityToApi(e).(serviceAddress := Some(serviceAddress)) in r.value)
  {
    var es := ForProduct(s, productId);
    var list := ToApiList(es, serviceAddress);
    forall i | 0 <= i < |es| ensures es[i] in s && es[i].productId == productId {
      assert es[i] in es;
    }
    forall e | e in s && e.productId == productId
      ensures EntityToApi(e).(serviceAddress := Some(serviceAddress)) in list
    {
      var i :| 0 <= i < |es| && es[i] == e;
      assert list[i] == EntityToApi(e).(serviceAddress := Some(serviceAddress));
    }
  }

  /** A valid id with nothing stored reads as an empty list, not as an error. */
  lemma {:induction false} GetWithNoEntries(s: Store, serviceAddress: string, productId: int)
    requires productId >= 1
    requires forall i :: 0 <= i < |s| ==> s[i].productId != productId
    ensures Get(s, serviceAddress, productId) == Ok([])
  {
    if s != [] {
      var init := s[..|s| - 1];
      GetWithNoEntries(init, serviceAddress, productId);
      assert ForProduct(s, productId) == ForProduct(init, productId);
    }
    assert |ToApiList(ForProduct(s, productId), serviceAddress)| == 0;
  }

  lemma {:induction false} ForProductOfWithout(s: Store, productId: int, other: int)
    ensures ForProduct(WithoutProduct(s, productId), other)
         == if other == productId then [] else ForProduct(s, other)
  {
    if s != [] {
      var init, last := s[..|s| - 1], s[|s| - 1];
      ForProductOfWithout(init, productId, other);
      var w := WithoutProduct(init, productId);
      if last.productId != productId {
        assert WithoutProduct(s, productId) == w + [last];
        ForProductAppend(w, last, other);
      } else {
        assert WithoutProduct(s, productId) == w;
      }
    }
  }

  lemma {:induction false} WithoutIdempotent(s: Store, productId: int)
    ensures WithoutProduct(WithoutProduct(s, productId), productId) == WithoutProduct(s, productId)
  {
    if s != [] {
      var init, last := s[..|s| - 1], s[|s| - 1];
      WithoutIdempotent(init, productId);
      var w := WithoutProduct(init, productId);
      if last.productId != productId {
        assert WithoutProduct(s, productId) == w + [last];
        WithoutAppend(w, last, productId);
      } else {
        assert WithoutProduct(s, productId) == w;
      }
    }
  }

  /** Delete leaves nothing of its product, keeps every other product's list as it
      was, and a second delete changes nothing. */
  lemma DeleteEffect(s: Store, productId: int, other: int)
    requires UniqueKeys(s) && other != productId
    ensures ForProduct(Delete(s, productId), productId) == []
    ensures ForProduct(Delete(s, productId), other) == ForProduct(s, other)
    ensures Delete(Delete(s, productId), productId) == Delete(s, productId)
  {
    ForProductOfWithout(s, productId, productId);
    ForProductOfWithout(s, productId, other);
    WithoutIdempotent(s, productId);
  }

  lemma WithoutAppend(s: Store, e: RecommendationEntity, productId: int)
    ensures WithoutProduct(s + [e], productId)
         == WithoutProduct(s, productId) + (if e.productId != productId then [e] else [])
  {
    assert (s + [e])[..|s|] == s;
  }

  // ----- MessageProcessor -----

  /** `process`: CREATE stores the event's data (a CREATE without data throws
      NullPointerException when its ids are logged); DELETE removes the key's
      entries. The `default` branch is unreachable: `Event.Type` has only these two. */
  function ProcessEvent(s: Store, event: Event<Recommendation>): (res: (Store, Outcome))
    requires UniqueKeys(s)
    ensures UniqueKeys(res.0)
    ensures event.eventType == DELETE ==> res == (Delete(s, event.key), Done)
    ensures event.eventType == CREATE && event.data.Some? ==>
              res.0 == Create(s, event.data.value).0
              && (res.1 == Done <==> Create(s, event.data.value).1.Ok?)
              && (res.1.Failed? ==> res.1 == Failed(Create(s, event.data.value).1.error))
    ensures event.eventType == CREATE && event.data.None? ==> res == (s, Failed(NullReference))
  {
    match event.eventType
    case CREATE =>
      (match event.data
       case None => (s, Failed(NullReference))
       case Some(recommendation) =>
         var (s', r) := Create(s, recommendation);
         (s', if r.Ok? then Done else Failed(r.error)))
    case DELETE =>
      (Delete(s, event.key), Done)
  }

  /** The store after the consumer has handled `events` in order, whatever each
      delivery's outcome: the index stays unique however the events interleave. */
  function ProcessAll(s: Store, events: seq<Event<Recommendation>>): (r: Store)
    requires UniqueKeys(s)
    ensures UniqueKeys(r)
    decreases |events|
  {
    if events == [] then s
    else ProcessAll(ProcessEvent(s, events[0]).0, events[1..])
  }

  /** Redelivery of a CREATE: exactly one entry is stored and the second delivery is
      rejected with the duplicate-key message. */
  lemma CreateRedelivered(s: Store, body: Recommendation)
    requires UniqueKeys(s) && !HasKey(s, body.productId, body.recommendationId)
    ensures var e := Event(CREATE, body.productId, Some(body));
            var (s1, o1) := ProcessEvent(s, e);
            var (s2, o2) := ProcessEvent(s1, e);
            o1 == Done && |s1| == |s| + 1 && s2 == s1
            && o2 == Failed(InvalidInput(DuplicateKeyMessage(body.productId, body.recommendationId)))
  {
    var s1 := s + [ApiToEntity(body)];
    assert s1[|s|].productId == body.productId && s1[|s|].recommendationId == body.recommendationId;
  }

  /** The test `duplicateError`: product 1, recommendation 1, sent twice. */
  lemma DuplicateMessageOfTest()
    ensures DuplicateKeyMessage(1, 1) == "Duplicate key, Product Id: 1, Recommendation Id: 1"
  {
  }

  /** Redelivery of a DELETE: both deliveries succeed and the second changes nothing. */
  lemma {:induction false} DeleteRedelivered(s: Store, productId: int)
    requires UniqueKeys(s)
    ensures var e := Event(DELETE, productId, None);
            var (s1, o1) := ProcessEvent(s, e);
            var (s2, o2) := ProcessEvent(s1, e);
            o1 == Done && o2 == Done && s2 == s1 && ForProduct(s1, productId) == []
  {
    DeleteEffect(s, productId, productId + 1);
  }

  /** The test `getRecommendationByProductId`: three CREATEs for recommendations 1, 2
      and 3 of product 1 read back as three entries, the third with id 3. */
  lemma {:induction false} ThreeCreatesScenario(r1: Recommendation, r2: Recommendation, r3: Recommendation, serviceAddress: string)
    requires r1.productId == 1 && r2.productId == 1 && r3.productId == 1
    requires r1.recommendationId == 1 && r2.recommendationId == 2 && r3.recommendationId == 3
    ensures var (s1, o1) := ProcessEvent([], Event(CREATE, 1, Some(r1)));
            var (s2, o2) := ProcessEvent(s1, Event(CREATE, 1, Some(r2)));
            var (s3, o3) := ProcessEvent(s2, Event(CREATE, 1, Some(r3)));
            var got := Get(s3, serviceAddress, 1);
            o1 == Done && o2 == Done && o3 == Done
            && got.Ok? && |got.value| == 3
            && got.value[2].productId == 1 && got.value[2].recommendationId == 3
  {
    var e1, e2, e3 := ApiToEntity(r1), ApiToEntity(r2), ApiToEntity(r3);
    assert !HasKey([e1], 1, 2);
    assert !HasKey([e1, e2], 1, 3);
    assert ([e1] + [e2]) == [e1, e2];
    ForProductAppend([], e1, 1);
    ForProductAppend([e1], e2, 1);
    ForProductAppend([e1, e2], e3, 1);
  }

  /** RecommendationServiceImpl: the repository and this instance's address. */
  class RecommendationService {
    var store: Store
    const serviceAddress: string

    ghost predicate Valid()
      reads this
    {
      UniqueKeys(store)
    }

    constructor (serviceAddress: string)
      ensures Valid() && store == [] && this.serviceAddress == serviceAddress
    {
      store := [];
      this.serviceAddress := serviceAddress;
    }

    method CreateRecommendation(body: Recommendation) returns (r: Result<Recommendation>)
      requires Valid()
      modifies this
      ensures Valid()
      ensures (store, r) == Create(old(store), body)
    {
      var entity := ApiToEntity(body);
      if HasKey(store, entity.productId, entity.recommendationId) {
        r := Err(InvalidInput(DuplicateKeyMessage(body.productId, body.recommendationId)));
      } else {
        store := store + [entity];
        r := Ok(EntityToApi(entity));
      }
    }

    /** The list is built, then each element's address is set in place. */
    method GetRecommendations(productId: int) returns (r: Result<seq<Recommendation>>)
      ensures r == Get(store, serviceAddress, productId)
    {
      if productId < 1 {
        return Err(InvalidInput(InvalidProductIdMessage(productId)));
      }
      var entities := ForProduct(store, productId);
      var list := new Recommendation[|entities|](i requires 0 <= i < |entities| => EntityToApi(entities[i]));
      for i := 0 to list.Length
        invariant forall k :: 0 <= k < i ==> list[k] == EntityToApi(entities[k]).(serviceAddress := Some(serviceAddress))
        invariant forall k :: i <= k < list.Length ==> list[k] == EntityToApi(entities[k])
      {
        list[i] := list[i].(serviceAddress := Some(serviceAddress));
      }
      assert list[..] == ToApiList(entities, serviceAddress);
      r := Ok(list[..]);
    }

    method DeleteRecommendations(productId: int)
      requires Valid()
      modifies this
      ensures Valid()
      ensures store == Delete(old(store), productId)
    {
      store := Delete(store, productId);
    }
  }

  /** The recommendation consumer, wired to the service it calls. */
  class MessageProcessor {
    const recommendationService: RecommendationService

    constructor (recommendationService: RecommendationService)
      ensures this.recommendationService == recommendationService
    {
      this.recommendationService := recommendationService;
    }

    method Process(event: Event<Recommendation>) returns (r: Outcome)
      requires recommendationService.Valid()
      modifies recommendationService
      ensures recommendationService.Valid()
      ensures (recommendationService.store, r) == ProcessEvent(old(recommendationService.store), event)
    {
      match event.eventType {
        case CREATE =>
          if event.data.None? {
            return Failed(NullReference);
          }
          var created := recommendationService.CreateRecommendation(event.data.value);
          r := if created.Ok? then Done else Failed(created.error);
        case DELETE =>
          recommendationService.DeleteRecommendations(event.key);
          r := Done;
      }
    }
  }
}
