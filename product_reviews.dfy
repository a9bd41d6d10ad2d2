/**
 * The review panel of the product page (`components/product-detail/Reviews.jsx`):
 * the rating breakdown, the star filter, and the list shown five reviews at a time.
 */
module ProductReviewPanel {
  import opened Js

  datatype ProductReview = ProductReview(id: int, author: string, rating: int, date: string, verified: bool,
                                         helpful: int, notHelpful: int)

  /** How many more reviews each "Load More Reviews" click shows, and how many are shown at first. */
  const PageStep := 5

  /** The reviews shown when the product has none. */
  const DefaultReviews: seq<ProductReview> := [
    ProductReview(1, "Sarah Johnson", 5, "2024-01-15", true, 45, 2),
    ProductReview(2, "Michael Chen", 4, "2024-01-10", true, 32, 1),
    ProductReview(3, "Emily Rodriguez", 5, "2024-01-05", true, 28, 0),
    ProductReview(4, "David Thompson", 4, "2023-12-28", false, 15, 3),
    ProductReview(5, "Lisa Park", 5, "2023-12-20", true, 52, 1),
    ProductReview(6, "James Wilson", 3, "2023-12-15", true, 8, 12)]

  /** `reviews.length > 0 ? reviews : defaultReviews` */
  function DisplayReviews(reviews: seq<ProductReview>): (r: seq<ProductReview>)
    ensures |reviews| > 0 ==> r == reviews
    ensures |reviews| == 0 ==> r == DefaultReviews
  {
    if |reviews| > 0 then reviews else DefaultReviews
  }

  /**
   * The panel always has reviews to show, so `totalReviews` is never 0 and the
   * breakdown's `count / totalReviews` never divides by zero.
   */
  lemma DisplayNeverEmpty(reviews: seq<ProductReview>)
    ensures |DisplayReviews(reviews)| > 0
  {
  }

  function RatingIs(star: int): ProductReview -> bool
  {
    (r: ProductReview) => r.rating == star
  }

  /** `ratingCounts[star]` */
  function RatingCount(display: seq<ProductReview>, star: int): nat
  {
    CountWhere(display, RatingIs(star))
  }

  /** When every rating is a whole number of stars from 1 to 5, the five bars count every review once. */
  lemma {:induction false} RatingCountsAddUp(display: seq<ProductReview>)
    requires forall r :: r in display ==> 1 <= r.rating <= 5
    ensures RatingCount(display, 5) + RatingCount(display, 4) + RatingCount(display, 3)
      + RatingCount(display, 2) + RatingCount(display, 1) == |display|
  {
    if display != [] {
      RatingCountsAddUp(display[1..]);
    }
  }

  /** The star filter: 'all', or the text of the chosen star count. */
  predicate PassesStarFilter(filterRating: string, r: ProductReview)
  {
    filterRating == "all" || DecimalString(r.rating) == filterRating
  }

  function StarFilter(filterRating: string): ProductReview -> bool
  {
    (r: ProductReview) => PassesStarFilter(filterRating, r)
  }

  function Min(a: int, b: int): int
  {
    if a <= b then a else b
  }

  /** `displayReviews.slice(0, visibleReviews)`, as written: the star filter is not applied. */
  function ShownAsWritten(display: seq<ProductReview>, visible: nat): seq<ProductReview>
  {
    display[..Min(visible, |display|)]
  }

  /**
   * As written, the list shows the first `visible` reviews, `min(visible, total)` of
   * them, and "Load More Reviews" is rendered exactly while some review is hidden.
   */
  lemma ShownAsWrittenMeaning(display: seq<ProductReview>, visible: nat)
    ensures |ShownAsWritten(display, visible)| == Min(visible, |display|)
    ensures ShownAsWritten(display, visible) == display[..|ShownAsWritten(display, visible)|]
    ensures visible < |display| <==> |ShownAsWritten(display, visible)| < |display|
  {
  }

  /** The list the star filter is meant to produce: the matching reviews, the first `visible` of them. */
  function Shown(display: seq<ProductReview>, filterRating: string, visible: nat): (r: seq<ProductReview>)
    ensures |r| == Min(visible, |Filter(display, StarFilter(filterRating))|)
    ensures r == Filter(display, StarFilter(filterRating))[..|r|]
  {
    var matching := Filter(display, StarFilter(filterRating));
    matching[..Min(visible, |matching|)]
  }

  /**
   * As written, choosing a star bar leaves the list as it was: with the built-in
   * reviews and the 1-star bar chosen, the first review shown has 5 stars, while no
   * review has 1 star and the filtered list is empty.
   */
  lemma StarFilterIgnoredAsWritten()
    ensures RatingCount(DefaultReviews, 1) == 0
    ensures ShownAsWritten(DefaultReviews, PageStep)[0].rating == 5
    ensures Shown(DefaultReviews, DecimalString(1), PageStep) == []
  {
    assert DecimalString(1) == "1";
    assert forall r :: r in DefaultReviews ==> 3 <= r.rating <= 5;
    assert Filter(DefaultReviews, StarFilter("1")) == [] by {
      assert DecimalString(5) == "5" && DecimalString(4) == "4" && DecimalString(3) == "3";
      NoneMatch(DefaultReviews, StarFilter("1"));
    }
    assert Filter(DefaultReviews, RatingIs(1)) == [] by {
      NoneMatch(DefaultReviews, RatingIs(1));
    }
  }

  /** A filter that no review passes leaves nothing. */
  lemma {:induction false} NoneMatch(display: seq<ProductReview>, p: ProductReview -> bool)
    requires forall r :: r in display ==> !p(r)
    ensures Filter(display, p) == []
  {
    if display != [] {
      assert !p(display[0]);
      NoneMatch(display[1..], p);
    }
  }

  /**
   * With the filter applied, every review shown has the chosen star count, the list
   * is the first `visible` matching reviews in order, and with 'all' it is the list
   * the panel shows as written.
   */
  lemma ShownMeaning(display: seq<ProductReview>, star: int, visible: nat)
    ensures forall r :: r in Shown(display, DecimalString(star), visible) ==> r in display && r.rating == star
    ensures Shown(display, "all", visible) == ShownAsWritten(display, visible)
  {
    var matching := Filter(display, StarFilter(DecimalString(star)));
    forall r | r in Shown(display, DecimalString(star), visible)
      ensures r in display && r.rating == star
    {
      var k :| 0 <= k < |Shown(display, DecimalString(star), visible)| && Shown(display, DecimalString(star), visible)[k] == r;
      assert r == matching[k];
      assert DecimalString(star) != "all" by {
        assert DecimalString(star)[0] != 'a' by {
          DecimalStringStart(star);
        }
      }
      ParseIntOfDecimalString(r.rating);
      ParseIntOfDecimalString(star);
    }
    forall r | r in display ensures StarFilter("all")(r) {
    }
    FilterAll(display, StarFilter("all"));
  }

  /** A number's text starts with a digit or '-'. */
  lemma DecimalStringStart(n: int)
    ensures DecimalString(n)[0] == '-' || IsDigit(DecimalString(n)[0])
  {
    if n >= 0 {
      DecimalDigits(n);
    }
  }

  class ReviewPanel {
    /** The `reviews` prop. */
    var reviews: seq<ProductReview>
    var sortBy: string
    var filterRating: string
    var visibleReviews: nat

    constructor(reviews: seq<ProductReview>)
      ensures this.reviews == reviews && sortBy == "helpful" && filterRating == "all" && visibleReviews == PageStep
    {
      this.reviews := reviews;
      sortBy := "helpful";
      filterRating := "all";
      visibleReviews := PageStep;
    }

    /** The reviews rendered, with the star filter applied. */
    function ShownReviews(): seq<ProductReview>
      reads this
    {
      Shown(DisplayReviews(reviews), filterRating, visibleReviews)
    }

    /** The "Load More Reviews" button is rendered: some matching review is still hidden. */
    predicate ShowsLoadMore()
      reads this
    {
      visibleReviews < |Filter(DisplayReviews(reviews), StarFilter(filterRating))|
    }

    /** `handleLoadMore()`: five more reviews, or all the rest when fewer remain. */
    method HandleLoadMore()
      modifies this`visibleReviews
      ensures visibleReviews == old(visibleReviews) + PageStep
      ensures |ShownReviews()| == Min(old(|ShownReviews()|) + PageStep, |Filter(DisplayReviews(reviews), StarFilter(filterRating))|)
      ensures old(ShownReviews()) == ShownReviews()[..old(|ShownReviews()|)]
    {
      visibleReviews := visibleReviews + PageStep;
    }

    /** A star bar's click: `setFilterRating(star.toString())`. */
    method SelectStar(star: int)
      modifies this`filterRating
      ensures filterRating == DecimalString(star)
    {
      filterRating := DecimalString(star);
    }

    /** "Clear filter": back to every review. */
    method ClearFilter()
      modifies this`filterRating
      ensures filterRating == "all"
      ensures ShownReviews() == ShownAsWritten(DisplayReviews(reviews), visibleReviews)
    {
      filterRating := "all";
      ShownMeaning(DisplayReviews(reviews), 0, visibleReviews);
    }
  }
}
