/**
 * Adding a product review: one review per user, the review pushed with its comment trimmed,
 * then `rating.count` and `rating.average` recomputed from all reviews before the save.
 */
module Reviews {
  import opened Wrappers
  import opened Lists
  import opened Text
  import opened Products

  /** Why `addProductReview` refuses: 404, 400, or 500 when the save fails validation. */
  datatype ReviewError = ProductNotFound | AlreadyReviewed | ServerError

  /** 201 "Review added successfully", or an error. */
  datatype ReviewReply = Created | Rejected(error: ReviewError)
  {
    function Status(): nat {
      match this
      case Created => 201
      case Rejected(ProductNotFound) => 404
      case Rejected(AlreadyReviewed) => 400
      case Rejected(ServerError) => 500
    }
  }

  function RatingOf(r: Review): int { r.rating }
  function ReviewUser(r: Review): UserId { r.user }

  function ByUser(user: UserId): Review -> bool {
    (r: Review) => r.user == user
  }

  /** The comment as the schema stores it: `trim: true` applies to a given comment. */
  function StoredComment(comment: Option<string>): Option<string> {
    if comment.Some? then Some(Trim(comment.value)) else None
  }

  /** The rating summary recomputed after the push: the number of reviews and the mean of
      their ratings (`reduce` over the ratings divided by the length). */
  function Summary(reviews: seq<Review>): (s: RatingSummary)
    requires |reviews| > 0
    ensures s.count == |reviews|
    ensures s.average * (|reviews| as real) == Sum(reviews, RatingOf) as real
  {
    RatingSummary(Mean(Sum(reviews, RatingOf), |reviews|), |reviews|)
  }

  /** A total divided by a positive count. */
  function Mean(total: int, count: nat): (r: real)
    requires count > 0
    ensures r * (count as real) == total as real
  {
    (total as real) / (count as real)
  }

  /** The reviews after `addProductReview` by `user`, or the refusal when that user has
      already reviewed the product. */
  function ReviewOutcome(reviews: seq<Review>, user: UserId, rating: int, comment: Option<string>)
    : (r: Result<seq<Review>, ReviewError>)
    ensures r.Failure? <==> exists i :: 0 <= i < |reviews| && reviews[i].user == user
    ensures r.Failure? ==> r.error == AlreadyReviewed
    ensures r.Success? ==> r.value == reviews + [Review(user, rating, StoredComment(comment))]
  {
    if FindIndex(reviews, ByUser(user)).Some? then Failure(AlreadyReviewed)
    else Success(reviews + [Review(user, rating, StoredComment(comment))])
  }

  /** No user has two reviews of the same product. */
  predicate OneReviewPerUser(reviews: seq<Review>) {
    Distinct(reviews, ReviewUser)
  }

  /** `POST /api/products/:id/reviews`. The catalog is the product collection; `rating` is
      the value of `Number(rating)`. */
  method AddProductReview(catalog: map<ProductId, Product>, productId: ProductId, user: UserId,
                          rating: int, comment: Option<string>) returns (reply: ReviewReply)
    modifies if productId in catalog then {catalog[productId]} else {}
    ensures productId !in catalog ==> reply == Rejected(ProductNotFound)
    ensures productId in catalog ==>
      var p := catalog[productId];
      var out := ReviewOutcome(old(p.reviews), user, rating, comment);
      && (out.Failure? ==> reply == Rejected(AlreadyReviewed) && unchanged(p))
      && (out.Success? && reply == Created ==>
            && p.reviews == out.value && p.rating == Summary(out.value)
            && p.totalStock == TotalStock(p.sizes) && p.SchemaValid()
            && p.sizes == old(p.sizes) && p.price == old(p.price) && p.isActive == old(p.isActive))
      && (out.Success? && reply != Created ==> reply == Rejected(ServerError) && unchanged(p))
    ensures productId in catalog && old(catalog[productId].SchemaValid()) && 1 <= rating <= 5
            && ReviewOutcome(old(catalog[productId].reviews), user, rating, comment).Success?
            ==> reply == Created
  {
    if productId !in catalog {
      return Rejected(ProductNotFound);
    }
    var product := catalog[productId];
    var alreadyReviewed := FindIndex(product.reviews, ByUser(user));
    if alreadyReviewed.Some? {
      return Rejected(AlreadyReviewed);
    }
    var saved := PushReview(product, Review(user, rating, StoredComment(comment)));
    if !saved {
      return Rejected(ServerError);
    }
    reply := Created;
  }

  /** `product.reviews.push(review)`, the recomputed rating summary and `product.save()`. A
      failed save leaves the stored product as it was; the changed document is dropped. */
  method PushReview(product: Product, review: Review) returns (saved: bool)
    modifies product
    ensures saved ==>
      && product.reviews == old(product.reviews) + [review]
      && product.rating == Summary(product.reviews)
      && product.totalStock == TotalStock(product.sizes) && product.SchemaValid()
      && product.sizes == old(product.sizes) && product.price == old(product.price)
      && product.isActive == old(product.isActive)
    ensures !saved ==> unchanged(product)
    ensures old(product.SchemaValid()) && 1 <= review.rating <= 5 ==> saved
  {
    var previousReviews, previousRating := product.reviews, product.rating;
    ghost var wasValid := product.SchemaValid();
    product.reviews := product.reviews + [review];
    product.rating := Summary(product.reviews);
    if wasValid && 1 <= review.rating <= 5 {
      ReviewRatingsStayInRange(previousReviews, review);
    }
    saved := product.Save();
    if !saved {
      product.reviews, product.rating := previousReviews, previousRating;
    }
  }

  /** Pushing a review with a rating from 1 to 5 onto reviews whose ratings all lie in that
      range keeps them there, and the recomputed average stays within the schema's bounds. */
  lemma {:induction false} ReviewRatingsStayInRange(reviews: seq<Review>, review: Review)
    requires forall i :: 0 <= i < |reviews| ==> 1 <= reviews[i].rating <= 5
    requires 1 <= review.rating <= 5
    ensures forall i :: 0 <= i < |reviews + [review]| ==> 1 <= (reviews + [review])[i].rating <= 5
    ensures 1.0 <= Summary(reviews + [review]).average <= 5.0
  {
    AverageWithinRatings(reviews + [review]);
  }

  /** With every rating between 1 and 5, the average is between 1 and 5. */
  lemma {:induction false} AverageWithinRatings(reviews: seq<Review>)
    requires |reviews| > 0
    requires forall i :: 0 <= i < |reviews| ==> 1 <= reviews[i].rating <= 5
    ensures 1.0 <= Summary(reviews).average <= 5.0
  {
    var n := |reviews| as real;
    var total := Sum(reviews, RatingOf);
    SumAtLeast(reviews, RatingOf, 1);
    SumAtMost(reviews, RatingOf, 5);
    MeanBounds(total as real, n, 1.0, 5.0);
  }

  /** A total between `lo` and `hi` times a positive count has its mean between `lo` and `hi`. */
  lemma {:induction false} MeanBounds(total: real, n: real, lo: real, hi: real)
    requires n > 0.0 && lo * n <= total <= hi * n
    ensures lo <= total / n <= hi
  {
    assert (total / n) * n == total;
  }

  /** A review that is accepted keeps one review per user. */
  lemma {:induction false} ReviewKeepsOnePerUser(reviews: seq<Review>, user: UserId, rating: int, comment: Option<string>)
    requires OneReviewPerUser(reviews)
    requires ReviewOutcome(reviews, user, rating, comment).Success?
    ensures OneReviewPerUser(ReviewOutcome(reviews, user, rating, comment).value)
  {
    var r := ReviewOutcome(reviews, user, rating, comment).value;
    assert forall i :: 0 <= i < |reviews| ==> r[i] == reviews[i] && reviews[i].user != user;
  }

  /** A second review by the same user is always refused. */
  lemma {:induction false} SecondReviewRefused(reviews: seq<Review>, user: UserId, r1: int, c1: Option<string>,
                            r2: int, c2: Option<string>)
    requires ReviewOutcome(reviews, user, r1, c1).Success?
    ensures ReviewOutcome(ReviewOutcome(reviews, user, r1, c1).value, user, r2, c2) == Failure(AlreadyReviewed)
  {
    var once := ReviewOutcome(reviews, user, r1, c1).value;
    assert once[|reviews|].user == user;
  }

  /** The recomputed count is the number of reviews, and the average of one more review is the
      old total plus the new rating over the new count. */
  lemma {:induction false} SummaryAfterPush(reviews: seq<Review>, review: Review)
    ensures Summary(reviews + [review]).count == |reviews| + 1
    ensures Summary(reviews + [review]).average == Mean(Sum(reviews, RatingOf) + review.rating, |reviews| + 1)
  {
    var pushed := reviews + [review];
    assert Sum(pushed, RatingOf) == Sum(reviews, RatingOf) + review.rating by {
      SumAppend(reviews, review, RatingOf);
    }
    assert |pushed| == |reviews| + 1;
  }
}
