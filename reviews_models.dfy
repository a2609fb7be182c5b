/** The review model (reviews/models.py): a rating with its star rendering,
    the moderation defaults and one review per customer and product. */
module Reviews {
  import opened Util
  import opened Text

  const FilledStar: char := '★'
  const EmptyStar: char := '☆'

  datatype Review = Review(
    productId: nat, customerName: string, customerEmail: string, rating: int,
    title: string, reviewText: string, isApproved: bool, isFeatured: bool)

  /** The rating validators: `MinValueValidator(1)` and `MaxValueValidator(5)`. */
  predicate ValidRating(rating: int) {
    1 <= rating <= 5
  }

  /** A review as first saved: approved and not featured unless told otherwise. */
  function NewReview(productId: nat, name: string, email: string, rating: int, title: string, text: string): (r: Review)
    ensures r.isApproved && !r.isFeatured
    ensures r.productId == productId && r.customerEmail == email && r.rating == rating
  {
    Review(productId, name, email, rating, title, text, true, false)
  }

  /** `Review.star_display`: `'★' * rating + '☆' * (5 - rating)`. */
  function StarDisplay(rating: int): string {
    Repeat([FilledStar], rating) + Repeat([EmptyStar], 5 - rating)
  }

  lemma {:induction false} RepeatCharAt(c: char, n: int, i: int)
    requires 0 <= i < n
    ensures Repeat([c], n)[i] == c
    decreases n
  {
    if i > 0 { RepeatCharAt(c, n - 1, i - 1); }
  }

  /** For a valid rating the display is five stars, the first `rating` of
      them filled and the rest empty. */
  lemma StarDisplayValid(rating: int)
    requires ValidRating(rating)
    ensures |StarDisplay(rating)| == 5
    ensures forall i :: 0 <= i < 5 ==> StarDisplay(rating)[i] == (if i < rating then FilledStar else EmptyStar)
  {
    var s := StarDisplay(rating);
    forall i | 0 <= i < 5 ensures s[i] == (if i < rating then FilledStar else EmptyStar) {
      if i < rating {
        RepeatCharAt(FilledStar, rating, i);
      } else {
        RepeatCharAt(EmptyStar, 5 - rating, i - rating);
      }
    }
  }

  lemma {:induction false} OccurrencesRepeat(c: char, d: char, n: int)
    ensures Occurrences(c, Repeat([d], n)) == if n <= 0 || c != d then 0 else n
    decreases n
  {
    if n > 0 {
      OccurrencesRepeat(c, d, n - 1);
      OccurrencesAppend(c, [d], Repeat([d], n - 1));
    }
  }

  /** For a valid rating the number of filled stars is the rating. */
  lemma StarDisplayCounts(rating: int)
    requires ValidRating(rating)
    ensures Occurrences(FilledStar, StarDisplay(rating)) == rating
    ensures Occurrences(EmptyStar, StarDisplay(rating)) == 5 - rating
  {
    OccurrencesAppend(FilledStar, Repeat([FilledStar], rating), Repeat([EmptyStar], 5 - rating));
    OccurrencesAppend(EmptyStar, Repeat([FilledStar], rating), Repeat([EmptyStar], 5 - rating));
    OccurrencesRepeat(FilledStar, FilledStar, rating);
    OccurrencesRepeat(FilledStar, EmptyStar, 5 - rating);
    OccurrencesRepeat(EmptyStar, FilledStar, rating);
    OccurrencesRepeat(EmptyStar, EmptyStar, 5 - rating);
  }

  /** Outside the validated range Python's repetition of a negative count
      gives `''`: a rating above 5 shows only filled stars, `rating` of
      them; one below 1 shows only empty stars, `5 - rating` of them. */
  lemma StarDisplayOutOfRange(rating: int)
    requires !ValidRating(rating)
    ensures rating > 5 ==> Occurrences(EmptyStar, StarDisplay(rating)) == 0 && |StarDisplay(rating)| == rating
    ensures rating < 1 ==> Occurrences(FilledStar, StarDisplay(rating)) == 0 && |StarDisplay(rating)| == 5 - rating
  {
    OccurrencesAppend(FilledStar, Repeat([FilledStar], rating), Repeat([EmptyStar], 5 - rating));
    OccurrencesAppend(EmptyStar, Repeat([FilledStar], rating), Repeat([EmptyStar], 5 - rating));
    OccurrencesRepeat(FilledStar, EmptyStar, 5 - rating);
    OccurrencesRepeat(EmptyStar, FilledStar, rating);
    OccurrencesRepeat(FilledStar, FilledStar, rating);
    OccurrencesRepeat(EmptyStar, EmptyStar, 5 - rating);
  }

  /** The key of `unique_together = ['product', 'customer_email']`. */
  function ReviewKey(r: Review): (nat, string) {
    (r.productId, r.customerEmail)
  }

  /** Saving a review: refused when this customer already reviewed the product. */
  function InsertReview(rows: seq<Review>, r: Review): Option<seq<Review>> {
    InsertUnique(rows, r, ReviewKey)
  }

  /** The email may be blank, and blank emails collide like any other: once
      one review without an email exists for a product, a second one is
      refused. */
  lemma SecondAnonymousReviewRefused(rows: seq<Review>, first: Review, second: Review)
    requires first.customerEmail == "" && second.customerEmail == "" && first.productId == second.productId
    requires InsertReview(rows, first).Some?
    ensures InsertReview(InsertReview(rows, first).value, second).None?
  {
    var after := InsertReview(rows, first).value;
    assert after[|rows|] == first;
    assert ReviewKey(after[|rows|]) == ReviewKey(second);
  }

  /** Reviews stay unique per (product, email) through any accepted insert;
      a customer may review several products. */
  lemma InsertReviewKeepsUnique(rows: seq<Review>, r: Review)
    requires KeysUnique(rows, ReviewKey)
    ensures InsertReview(rows, r).Some? ==> KeysUnique(InsertReview(rows, r).value, ReviewKey)
    ensures InsertReview(rows, r).None? <==>
      exists i :: 0 <= i < |rows| && rows[i].productId == r.productId && rows[i].customerEmail == r.customerEmail
  {
  }
}
