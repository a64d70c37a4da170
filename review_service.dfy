/** review-service: ReviewServiceImpl over a store in which the pair
    (productId, reviewId) is unique, and its mapper. */
module ReviewCore {
  import opened Util
  import opened Api
  import Decimal

  /** ReviewEntity without its generated id and version. */
  datatype ReviewEntity = ReviewEntity(
    productId: int, reviewId: int, author: string, subject: string, content: string)

  /** ReviewMapper.apiToEntity. */
  function ApiToEntity(r: Review): ReviewEntity
  {
    ReviewEntity(r.productId, r.reviewId, r.author, r.subject, r.content)
  }

  /** ReviewMapper.entityToApi: the address is left `null`. */
  function EntityToApi(e: ReviewEntity): Review
  {
    Review(e.productId, e.reviewId, e.author, e.subject, e.content, None)
  }

  /** api -> entity -> api keeps productId, reviewId, author, subject and content and
      drops the address to `null`. */
  lemma MapperRoundTrip(r: Review)
    ensures EntityToApi(ApiToEntity(r)) == r.(serviceAddress := None)
  {
  }

  /** The repository's rows in insertion order, which is the order
      `findByProductId` returns them in. */
  type Store = seq<ReviewEntity>

  predicate SameKey(a: ReviewEntity, b: ReviewEntity)
  {
    a.productId == b.productId && a.reviewId == b.reviewId
  }

  /** The compound unique index on (productId, reviewId). */
  predicate UniqueKeys(s: Store)
  {
    forall i, j :: 0 <= i < j < |s| ==> !SameKey(s[i], s[j])
  }

  predicate HasKey(s: Store, productId: int, reviewId: int)
  {
    exists i :: 0 <= i < |s| && s[i].productId == productId && s[i].reviewId == reviewId
  }

  function DuplicateKeyMessage(productId: int, reviewId: int): string
  {
    "Duplicate key, Product Id: " + Decimal.IntToString(productId)
    + ", Review Id: " + Decimal.IntToString(reviewId)
  }

  function InvalidProductIdMessage(productId: int): string
  {
    "Invalid productId: " + Decimal.IntToString(productId)
  }

  /** createReview: `save` under the unique index; a DataIntegrityViolationException
      becomes an InvalidInputException and nothing is written. */
  function Create(s: Store, body: Review): (res: (Store, Result<Review>))
    requires UniqueKeys(s)
    ensures UniqueKeys(res.0)
    ensures res.1.Ok? <==> !HasKey(s, body.productId, body.reviewId)
    ensures res.1.Ok? ==> res.0 == s + [ApiToEntity(body)] && res.1.value == EntityToApi(ApiToEntity(body))
    ensures res.1.Err? ==> res.0 == s
                           && res.1.error == InvalidInput(DuplicateKeyMessage(body.productId, body.reviewId))
  {
    if HasKey(s, body.productId, body.reviewId) then
      (s, Err(InvalidInput(DuplicateKeyMessage(body.productId, body.reviewId))))
    else
      var entity := ApiToEntity(body);
      (s + [entity], Ok(EntityToApi(entity)))
  }

  /** `findByProductId`: the entries of one product, in store order. */
  function ForProduct(s: Store, productId: int): (r: Store)
    ensures |r| <= |s|
    ensures forall e :: e in r <==> e in s && e.productId == productId
  {
    if s == [] then []
    else
      var last := s[|s| - 1];
      ForProduct(s[..|s| - 1], productId) + (if last.productId == productId then [last] else [])
  }

  /** `deleteAll(findByProductId(..))`: every entry of other products, in store order. */
  function WithoutProduct(s: Store, productId: int): (r: Store)
    ensures |r| <= |s|
    ensures forall e :: e in r <==> e in s && e.productId != productId
  {
    if s == [] then []
    else
      var last := s[|s| - 1];
      WithoutProduct(s[..|s| - 1], productId) + (if last.productId != productId then [last] else [])
  }

  /** entityListToApiList followed by setting this instance's address on every element. */
  function ToApiList(entities: Store, serviceAddress: string): (r: seq<Review>)
    ensures |r| == |entities|
    ensures forall i :: 0 <= i < |r| ==>
              r[i].productId == entities[i].productId && r[i].serviceAddress == Some(serviceAddress)
  {
    seq(|entities|, i requires 0 <= i < |entities| =>
      EntityToApi(entities[i]).(serviceAddress := Some(serviceAddress)))
  }

  /** getReviews: ids below 1 are refused; otherwise the product's entries,
      each carrying this instance's address (an empty list when there are none). */
  function Get(s: Store, serviceAddress: string, productId: int): (r: Result<seq<Review>>)
    ensures r.Err? <==> productId < 1
    ensures productId < 1 ==> r == Err(InvalidInput(InvalidProductIdMessage(productId)))
    ensures r.Ok? ==> forall x :: x in r.value ==> x.productId == productId && x.serviceAddress == Some(serviceAddress)
  {
    if productId < 1 then Err(InvalidInput(InvalidProductIdMessage(productId)))
    else Ok(ToApiList(ForProduct(s, productId), serviceAddress))
  }

  /** deleteReviews: never fails; removes exactly the product's entries. */
  function Delete(s: Store, productId: int): (r: Store)
    requires UniqueKeys(s)
    ensures UniqueKeys(r)
  {
    WithoutFilterUnique(s, productId);
    WithoutProduct(s, productId)
  }

  lemma {:induction false} WithoutFilterUnique(s: Store, productId: int)
    requires UniqueKeys(s)
    ensures UniqueKeys(WithoutProduct(s, productId))
  {
    if s != [] {
      var init := s[..|s| - 1];
      var last := s[|s| - 1];
      assert UniqueKeys(init);
      WithoutFilterUnique(init, productId);
      var w := WithoutProduct(init, productId);
      forall i | 0 <= i < |w| ensures !SameKey(w[i], last) {
        assert w[i] in init;
        var k :| 0 <= k < |init| && init[k] == w[i];
        assert s[k] == w[i];
      }
    }
  }

  /** Every entry of the product comes back as often as it is stored, and no other entry does. */
  lemma {:induction false} ForProductMultiplicity(s: Store, productId: int, e: ReviewEntity)
    ensures multiset(ForProduct(s, productId))[e] == if e.productId == productId then multiset(s)[e] else 0
  {
    if s != [] {
      var init := s[..|s| - 1];
      ForProductMultiplicity(init, productId, e);
      assert s == init + [s[|s| - 1]];
    }
  }

  lemma ForProductAppend(s: Store, e: ReviewEntity, productId: int)
    ensures ForProduct(s + [e], productId)
         == ForProduct(s, productId) + (if e.productId == productId then [e] else [])
  {
    assert (s + [e])[..|s|] == s;
  }

  /** What was created reads back: a fresh entry is the last of its product's list. */
  lemma {:induction false} GetAfterCreate(s: Store, body: Review, serviceAddress: string)
    requires UniqueKeys(s) && body.productId >= 1 && !HasKey(s, body.productId, body.reviewId)
    ensures var r := Get(Create(s, body).0, serviceAddress, body.productId);
            r.Ok? && |r.value| == |ForProduct(s, body.productId)| + 1
            && r.value[|r.value| - 1] == body.(serviceAddress := Some(serviceAddress))
  {
    ForProductAppend(s, ApiToEntity(body), body.productId);
  }

  /** A valid read returns exactly the product's stored entries: each returned entry
      is stored under that product and carries the reader's address, and each stored
      entry of the product is returned. */
  lemma {:induction false} GetReturnsExactlyThatProduct(s: Store, serviceAddress: string, productId: int)
    requires productId >= 1
    ensures var r := Get(s, serviceAddress, productId);
            && r.Ok?
            && (forall i :: 0 <= i < |r.value| ==>
                  r.value[i].productId == productId && r.value[i].serviceAddress == Some(serviceAddress)
                  && ApiToEntity(r.value[i]) in s)
            && (forall e :: e in s && e.productId == productId ==>
                  EntityToApi(e).(serviceAddress := Some(serviceAddress)) in r.value)
  {
    var es := ForProduct(s, productId);
    var list := ToApiList(es, serviceAddress);
    forall i | 0 <= i < |es| ensures es[i] in s && es[i].productId == productId {
      assert es[i] in es;
    }
    forall e | e in s && e.productId == productId
      ensures EntityToApi(e).(serviceAddress := Some(serviceAddress)) in list
    {
      var i :| 0 <= i < |es| && es[i] == e;
      assert list[i] == EntityToApi(e).(serviceAddress := Some(serviceAddress));
    }
  }

  /** A valid id with nothing stored reads as an empty list, not as an error. */
  lemma {:induction false} GetWithNoEntries(s: Store, serviceAddress: string, productId: int)
    requires productId >= 1
    requires forall i :: 0 <= i < |s| ==> s[i].productId != productId
    ensures Get(s, serviceAddress, productId) == Ok([])
  {
    if s != [] {
      var init := s[..|s| - 1];
      GetWithNoEntries(init, serviceAddress, productId);
      assert ForProduct(s, productId) == ForProduct(init, productId);
    }
    assert |ToApiList(ForProduct(s, productId), serviceAddress)| == 0;
  }

  lemma {:induction false} ForProductOfWithout(s: Store, productId: int, other: int)
    ensures ForProduct(WithoutProduct(s, productId), other)
         == if other == productId then [] else ForProduct(s, other)
  {
    if s != [] {
      var init, last := s[..|s| - 1], s[|s| - 1];
      ForProductOfWithout(init, productId, other);
      var w := WithoutProduct(init, productId);
      if last.productId != productId {
        assert WithoutProduct(s, productId) == w + [last];
        ForProductAppend(w, last, other);
      } else {
        assert WithoutProduct(s, productId) == w;
      }
    }
  }

  lemma {:induction false} WithoutIdempotent(s: Store, productId: int)
    ensures WithoutProduct(WithoutProduct(s, productId), productId) == WithoutProduct(s, productId)
  {
    if s != [] {
      var init, last := s[..|s| - 1], s[|s| - 1];
      WithoutIdempotent(init, productId);
      var w := WithoutProduct(init, productId);
      if last.productId != productId {
        assert WithoutProduct(s, productId) == w + [last];
        WithoutAppend(w, last, productId);
      } else {
        assert WithoutProduct(s, productId) == w;
      }
    }
  }

  /** Delete leaves nothing of its product, keeps every other product's list as it
      was, and a second delete changes nothing. */
  lemma DeleteEffect(s: Store, productId: int, other: int)
    requires UniqueKeys(s) && other != productId
    ensures ForProduct(Delete(s, productId), productId) == []
    ensures ForProduct(Delete(s, productId), other) == ForProduct(s, other)
    ensures Delete(Delete(s, productId), productId) == Delete(s, productId)
  {
    ForProductOfWithout(s, productId, productId);
    ForProductOfWithout(s, productId, other);
    WithoutIdempotent(s, productId);
  }

  lemma WithoutAppend(s: Store, e: ReviewEntity, productId: int)
    ensures WithoutProduct(s + [e], productId)
         == WithoutProduct(s, productId) + (if e.productId != productId then [e] else [])
  {
    assert (s + [e])[..|s|] == s;
  }

  /** Creating the same review twice stores it once: the second call is rejected
      with the duplicate-key message and leaves the store as the first call left it. */
  lemma CreateTwice(s: Store, body: Review)
    requires UniqueKeys(s) && !HasKey(s, body.productId, body.reviewId)
    ensures var (s1, r1) := Create(s, body);
            var (s2, r2) := Create(s1, body);
            r1.Ok? && |s1| == |s| + 1 && s2 == s1
            && r2 == Err(InvalidInput(DuplicateKeyMessage(body.productId, body.reviewId)))
  {
    var s1 := s + [ApiToEntity(body)];
    assert s1[|s|].productId == body.productId && s1[|s|].reviewId == body.reviewId;
  }

  /** The test `duplicateError`: product 1, review 1, created twice. */
  lemma DuplicateMessageOfTest()
    ensures DuplicateKeyMessage(1, 1) == "Duplicate key, Product Id: 1, Review Id: 1"
  {
  }

  /** ReviewServiceImpl: the repository and this instance's address. */
  class ReviewService {
    var store: Store
    const serviceAddress: string

    ghost predicate Valid()
      reads this
    {
      UniqueKeys(store)
    }

    constructor (serviceAddress: string)
      ensures Valid() && store == [] && this.serviceAddress == serviceAddress
    {
      store := [];
      this.serviceAddress := serviceAddress;
    }

    method CreateReview(body: Review) returns (r: Result<Review>)
      requires Valid()
      modifies this
      ensures Valid()
      ensures (store, r) == Create(old(store), body)
    {
      var entity := ApiToEntity(body);
      if HasKey(store, entity.productId, entity.reviewId) {
        r := Err(InvalidInput(DuplicateKeyMessage(body.productId, body.reviewId)));
      } else {
        store := store + [entity];
        r := Ok(EntityToApi(entity));
      }
    }

    /** The list is built, then each element's address is set in place. */
    method GetReviews(productId: int) returns (r: Result<seq<Review>>)
      ensures r == Get(store, serviceAddress, productId)
    {
      if productId < 1 {
        return Err(InvalidInput(InvalidProductIdMessage(productId)));
      }
      var entities := ForProduct(store, productId);
      var list := new Review[|entities|](i requires 0 <= i < |entities| => EntityToApi(entities[i]));
      for i := 0 to list.Length
        invariant forall k :: 0 <= k < i ==> list[k] == EntityToApi(entities[k]).(serviceAddress := Some(serviceAddress))
        invariant forall k :: i <= k < list.Length ==> list[k] == EntityToApi(entities[k])
      {
        list[i] := list[i].(serviceAddress := Some(serviceAddress));
      }
      assert list[..] == ToApiList(entities, serviceAddress);
      r := Ok(list[..]);
    }

    method DeleteReviews(productId: int)
      requires Valid()
      modifies this
      ensures Valid()
      ensures store == Delete(old(store), productId)
    {
      store := Delete(store, productId);
    }
  }
}
