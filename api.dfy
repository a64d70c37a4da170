/** The `api` project's transfer objects. Text fields that the modelled code only
    copies are plain strings; `serviceAddress` and the summary lists, which the
    code sets to `null` or tests against `null`, are `Option`s. */
module Api {
  import opened Util

  datatype Product = Product(productId: int, name: string, weight: int, serviceAddress: Option<string>)

  datatype Recommendation = Recommendation(
    productId: int, recommendationId: int, author: string, rate: int, content: string,
    serviceAddress: Option<string>)

  datatype Review = Review(
    productId: int, reviewId: int, author: string, subject: string, content: string,
    serviceAddress: Option<string>)

  datatype RecommendationSummary = RecommendationSummary(
    recommendationId: int, author: string, rate: int, content: string)

  datatype ReviewSummary = ReviewSummary(
    reviewId: int, author: string, subject: string, content: string)

  /** Which instances answered a composite read: composite, product, review, recommendation. */
  datatype ServiceAddress = ServiceAddress(
    cmp: Option<string>, pro: Option<string>, rev: Option<string>, rec: Option<string>)

  datatype ProductAggregate = ProductAggregate(
    productId: int, name: string, weight: int,
    recommendations: Option<seq<RecommendationSummary>>,
    reviews: Option<seq<ReviewSummary>>,
    serviceAddresses: Option<ServiceAddress>)
}
