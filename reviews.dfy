/**
 * The review table and the submit-or-update step of `business_detail`
 * (app.py:96-123): a submission by a signed-in user either overwrites that
 * user's review of the business or appends a new one.
 */
module Reviews {
  import opened Wrappers
  import opened Records

  /** `r` is the review written by `userId` about `businessId`. */
  predicate IsReviewBy(r: Review, userId: int, businessId: int) {
    r.userId == userId && r.businessId == businessId
  }

  /** The table invariant the upsert keeps: at most one review per (user, business) pair. */
  predicate Unique(reviews: seq<Review>) {
    forall i, j :: 0 <= i < j < |reviews| ==> !IsReviewBy(reviews[j], reviews[i].userId, reviews[i].businessId)
  }

  /** `k` is the position of the first review by `userId` of `businessId`. */
  predicate FirstReviewBy(reviews: seq<Review>, userId: int, businessId: int, k: int) {
    && 0 <= k < |reviews|
    && IsReviewBy(reviews[k], userId, businessId)
    && forall j :: 0 <= j < k ==> !IsReviewBy(reviews[j], userId, businessId)
  }

  /**
   * The caller's existing review, as `filter_by(user_id=..., business_id=...).first()`
   * finds it (app.py:103-106), given as its position in the table.
   */
  function FindReview(reviews: seq<Review>, userId: int, businessId: int): (k: Option<nat>)
    ensures k.Some? ==> FirstReviewBy(reviews, userId, businessId, k.value)
    ensures k.None? ==> forall j :: 0 <= j < |reviews| ==> !IsReviewBy(reviews[j], userId, businessId)
  {
    if |reviews| == 0 then None
    else if IsReviewBy(reviews[0], userId, businessId) then Some(0)
    else match FindReview(reviews[1..], userId, businessId)
      case None => None
      case Some(k) => Some(k + 1)
  }

  /** The first review by a pair is unique, so the search finds exactly that one. */
  lemma FindReviewIs(reviews: seq<Review>, userId: int, businessId: int, k: nat)
    requires FirstReviewBy(reviews, userId, businessId, k)
    ensures FindReview(reviews, userId, businessId) == Some(k)
  {
  }

  /** The reviews of one business in table order, as `filter_by(business_id=...).all()` (app.py:99, 138). */
  function ReviewsOf(reviews: seq<Review>, businessId: int): (r: seq<Review>)
    ensures |r| <= |reviews|
    ensures forall x :: x in r ==> x in reviews && x.businessId == businessId
    ensures forall i :: 0 <= i < |reviews| && reviews[i].businessId == businessId ==> reviews[i] in r
  {
    if reviews == [] then []
    else
      var last := reviews[|reviews| - 1];
      ReviewsOf(reviews[..|reviews| - 1], businessId) + (if last.businessId == businessId then [last] else [])
  }

  /** The six submitted fields assigned to an existing row (app.py:114-119); id and keys are kept. */
  function Fill(r: Review, f: ReviewForm): Review {
    r.(ratingPlace := f.ratingPlace, ratingPrice := f.ratingPrice, ratingInstall := f.ratingInstall,
       ratingService := f.ratingService, location := f.location, text := f.text)
  }

  /** The row a first submission inserts (app.py:112-119); `id` is the next id the table hands out. */
  function NewReview(id: int, userId: int, businessId: int, f: ReviewForm): Review {
    Review(id, f.ratingPlace, f.ratingPrice, f.ratingInstall, f.ratingService, f.location, f.text, userId, businessId)
  }

  /** `r` holds exactly the six submitted fields. */
  predicate Holds(r: Review, f: ReviewForm) {
    && r.ratingPlace == f.ratingPlace && r.ratingPrice == f.ratingPrice
    && r.ratingInstall == f.ratingInstall && r.ratingService == f.ratingService
    && r.location == f.location && r.text == f.text
  }

  /**
   * The table after `userId` submits `f` for `businessId` (app.py:109-122):
   * the first matching review is overwritten, or a new row is appended with
   * the next id.
   */
  function Upsert(reviews: seq<Review>, userId: int, businessId: int, f: ReviewForm): seq<Review> {
    match FindReview(reviews, userId, businessId)
    case Some(k) => reviews[k := Fill(reviews[k], f)]
    case None => reviews + [NewReview(|reviews| + 1, userId, businessId, f)]
  }

  /**
   * An existing review is updated where it stands: the table does not grow,
   * the row keeps its id and keys and holds the submitted fields, and every
   * other row is unchanged.
   */
  lemma UpsertUpdatesInPlace(reviews: seq<Review>, userId: int, businessId: int, f: ReviewForm, k: nat)
    requires FindReview(reviews, userId, businessId) == Some(k)
    ensures var after := Upsert(reviews, userId, businessId, f);
      && |after| == |reviews|
      && after[k].id == reviews[k].id && IsReviewBy(after[k], userId, businessId) && Holds(after[k], f)
      && forall j :: 0 <= j < |reviews| && j != k ==> after[j] == reviews[j]
  {
  }

  /**
   * Without an existing review exactly one row is added, at the end, with
   * the next id, the caller and the business as keys and the submitted
   * fields; the rows before it are unchanged.
   */
  lemma UpsertAppendsNew(reviews: seq<Review>, userId: int, businessId: int, f: ReviewForm)
    requires FindReview(reviews, userId, businessId).None?
    ensures var after := Upsert(reviews, userId, businessId, f);
      && |after| == |reviews| + 1
      && after[..|reviews|] == reviews
      && after[|reviews|].id == |reviews| + 1
      && IsReviewBy(after[|reviews|], userId, businessId) && Holds(after[|reviews|], f)
  {
  }

  /** After a submission the caller's review of the business is found and holds what was submitted. */
  lemma UpsertThenFind(reviews: seq<Review>, userId: int, businessId: int, f: ReviewForm)
    ensures var after := Upsert(reviews, userId, businessId, f);
      var k := FindReview(after, userId, businessId);
      k.Some? && Holds(after[k.value], f)
  {
    var after := Upsert(reviews, userId, businessId, f);
    match FindReview(reviews, userId, businessId)
    case Some(k) =>
      assert FirstReviewBy(after, userId, businessId, k);
      FindReviewIs(after, userId, businessId, k);
    case None =>
      assert FirstReviewBy(after, userId, businessId, |reviews|);
      FindReviewIs(after, userId, businessId, |reviews|);
  }

  /** The upsert keeps the one-review-per-pair invariant. */
  lemma UpsertPreservesUnique(reviews: seq<Review>, userId: int, businessId: int, f: ReviewForm)
    requires Unique(reviews)
    ensures Unique(Upsert(reviews, userId, businessId, f))
  {
  }

  /** Submitting twice leaves the table as if only the second submission had been made. */
  lemma LastSubmissionWins(reviews: seq<Review>, userId: int, businessId: int, f: ReviewForm, g: ReviewForm)
    ensures Upsert(Upsert(reviews, userId, businessId, f), userId, businessId, g) == Upsert(reviews, userId, businessId, g)
  {
    var once := Upsert(reviews, userId, businessId, f);
    match FindReview(reviews, userId, businessId)
    case Some(k) =>
      assert FirstReviewBy(once, userId, businessId, k);
      FindReviewIs(once, userId, businessId, k);
      assert Fill(Fill(reviews[k], f), g) == Fill(reviews[k], g);
    case None =>
      assert FirstReviewBy(once, userId, businessId, |reviews|);
      FindReviewIs(once, userId, businessId, |reviews|);
      assert Fill(NewReview(|reviews| + 1, userId, businessId, f), g) == NewReview(|reviews| + 1, userId, businessId, g);
      assert once[|reviews| := NewReview(|reviews| + 1, userId, businessId, g)]
          == reviews + [NewReview(|reviews| + 1, userId, businessId, g)];
  }

  /** Appending a row adds it to the reviews of its own business only. */
  lemma ReviewsOfAppend(reviews: seq<Review>, x: Review, businessId: int)
    ensures ReviewsOf(reviews + [x], businessId)
         == ReviewsOf(reviews, businessId) + (if x.businessId == businessId then [x] else [])
  {
  }

  /** The filter keeps table order across any split of the table. */
  lemma {:induction false} ReviewsOfConcat(s: seq<Review>, t: seq<Review>, businessId: int)
    ensures ReviewsOf(s + t, businessId) == ReviewsOf(s, businessId) + ReviewsOf(t, businessId)
    decreases |t|
  {
    if t != [] {
      var n := |t| - 1;
      var last := if t[n].businessId == businessId then [t[n]] else [];
      assert (s + t)[..|s + t| - 1] == s + t[..n] && (s + t)[|s + t| - 1] == t[n];
      assert ReviewsOf(s + t, businessId) == ReviewsOf(s + t[..n], businessId) + last;
      assert ReviewsOf(t, businessId) == ReviewsOf(t[..n], businessId) + last;
      ReviewsOfConcat(s, t[..n], businessId);
    } else {
      assert s + t == s;
    }
  }

  /**
   * Each row of the business appears in the filtered list exactly as often
   * as in the table, and no other row appears at all.
   */
  lemma {:induction false} ReviewsOfCounts(reviews: seq<Review>, businessId: int)
    ensures forall x :: multiset(ReviewsOf(reviews, businessId))[x]
                        == (if x.businessId == businessId then multiset(reviews)[x] else 0)
  {
    if reviews != [] {
      var n := |reviews| - 1;
      ReviewsOfCounts(reviews[..n], businessId);
      assert reviews == reviews[..n] + [reviews[n]];
    }
  }

  /** Replacing a row by one of the same business keeps every business's review count. */
  lemma {:induction false} ReviewsOfUpdate(reviews: seq<Review>, k: nat, x: Review, businessId: int)
    requires k < |reviews| && x.businessId == reviews[k].businessId
    ensures |ReviewsOf(reviews[k := x], businessId)| == |ReviewsOf(reviews, businessId)|
    decreases |reviews|
  {
    var n := |reviews| - 1;
    if k < n {
      assert reviews[k := x][..n] == reviews[..n][k := x];
      assert reviews[k := x][n] == reviews[n];
      ReviewsOfUpdate(reviews[..n], k, x, businessId);
    } else {
      assert reviews[k := x][..n] == reviews[..n];
    }
  }

  /**
   * A submission adds one review to its business exactly when the caller
   * had none there, and changes no other business's review count.
   */
  lemma UpsertReviewCount(reviews: seq<Review>, userId: int, businessId: int, f: ReviewForm, other: int)
    ensures |ReviewsOf(Upsert(reviews, userId, businessId, f), other)|
         == |ReviewsOf(reviews, other)|
            + (if other == businessId && FindReview(reviews, userId, businessId).None? then 1 else 0)
  {
    match FindReview(reviews, userId, businessId)
    case Some(k) =>
      ReviewsOfUpdate(reviews, k, Fill(reviews[k], f), other);
    case None =>
      ReviewsOfAppend(reviews, NewReview(|reviews| + 1, userId, businessId, f), other);
  }

  /** A second submission by the same user never raises the business's review count. */
  lemma ResubmitKeepsCount(reviews: seq<Review>, userId: int, businessId: int, f: ReviewForm, g: ReviewForm)
    ensures var once := Upsert(reviews, userId, businessId, f);
      |ReviewsOf(Upsert(once, userId, businessId, g), businessId)| == |ReviewsOf(once, businessId)|
  {
    var once := Upsert(reviews, userId, businessId, f);
    UpsertThenFind(reviews, userId, businessId, f);
    UpsertReviewCount(once, userId, businessId, g, businessId);
  }
}
