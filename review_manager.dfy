/**
 * The admin review moderation screen (`components/admin/ReviewManager.jsx`):
 * filtering by status and rating, five reviews per page, approve / reject /
 * delete, the actions offered for each status, and the status counts.
 */
module ReviewModeration {
  import opened Js
  import opened AdminLists

  datatype Review = Review(id: int, productName: string, author: string, rating: int, title: string, status: string, helpful: int)

  const ItemsPerPage := 5

  /** The reviews the screen starts with. */
  const InitialReviews: seq<Review> := [
    Review(1, "RoboClean Pro X1", "Sarah Johnson", 5, "Absolutely Amazing!", "pending", 0),
    Review(2, "ChefBot Deluxe", "Michael Chen", 4, "Great value for money", "approved", 12),
    Review(3, "LawnMaster AI", "Emily Rodriguez", 5, "Perfect for pet owners!", "approved", 28),
    Review(4, "RoboClean Pro X1", "John Doe", 2, "Disappointed", "pending", 3),
    Review(5, "ServeBot Elite", "Lisa Park", 5, "Best investment!", "approved", 45)]

  function StatusOf(r: Review): string
  {
    r.status
  }

  /** The review passes the status select and the rating select ('all' switches either off). */
  predicate ReviewMatches(filterStatus: string, filterRating: string, r: Review)
  {
    (filterStatus == "all" || r.status == filterStatus)
    && (filterRating == "all" || DecimalString(r.rating) == filterRating)
  }

  function Matching(filterStatus: string, filterRating: string): Review -> bool
  {
    (r: Review) => ReviewMatches(filterStatus, filterRating, r)
  }

  /** `filteredReviews` */
  function Filtered(reviews: seq<Review>, filterStatus: string, filterRating: string): seq<Review>
  {
    Filter(reviews, Matching(filterStatus, filterRating))
  }

  /**
   * The rating select compares `rating.toString()` with the option's text; for the
   * numeric options this is the same as comparing the ratings as numbers.
   */
  lemma RatingFilterIsNumeric(r: Review, n: int)
    ensures DecimalString(r.rating) == DecimalString(n) <==> r.rating == n
  {
    if DecimalString(r.rating) == DecimalString(n) {
      ParseIntOfDecimalString(r.rating);
      ParseIntOfDecimalString(n);
    }
  }

  /** The filtered reviews are exactly those matching both selects, in their order. */
  lemma FilteredMeaning(reviews: seq<Review>, filterStatus: string, filterRating: string)
    ensures IsSubsequence(Filtered(reviews, filterStatus, filterRating), reviews)
    ensures forall r :: r in Filtered(reviews, filterStatus, filterRating) <==>
      r in reviews && ReviewMatches(filterStatus, filterRating, r)
    ensures filterStatus == "all" && filterRating == "all" ==> Filtered(reviews, filterStatus, filterRating) == reviews
  {
    FilterIsSubsequence(reviews, Matching(filterStatus, filterRating));
    forall r | r in reviews && ReviewMatches(filterStatus, filterRating, r)
      ensures r in Filtered(reviews, filterStatus, filterRating)
    {
      var k :| 0 <= k < |reviews| && reviews[k] == r;
    }
    if filterStatus == "all" && filterRating == "all" {
      FilterAll(reviews, Matching(filterStatus, filterRating));
    }
  }

  function HasId(id: int): Review -> bool
  {
    (r: Review) => r.id == id
  }

  function IdIsNot(id: int): Review -> bool
  {
    (r: Review) => r.id != id
  }

  function WithStatus(status: string): Review -> Review
  {
    (r: Review) => r.(status := status)
  }

  /** `reviews.map((r) => r.id === id ? { ...r, status } : r)` */
  function SetStatus(reviews: seq<Review>, id: int, status: string): (res: seq<Review>)
    ensures |res| == |reviews|
    ensures forall k :: 0 <= k < |res| && reviews[k].id == id ==> res[k] == reviews[k].(status := status)
    ensures forall k :: 0 <= k < |res| && reviews[k].id != id ==> res[k] == reviews[k]
  {
    ReplaceWhere(reviews, HasId(id), WithStatus(status))
  }

  /** The moderation buttons. */
  datatype Action = Approve | Reject

  /** The status an action sets. */
  function Target(a: Action): string
  {
    match a
    case Approve => "approved"
    case Reject => "rejected"
  }

  /** The buttons rendered for a review with this status. */
  function OfferedActions(status: string): (r: set<Action>)
    ensures status == "pending" ==> r == {Approve, Reject}
    ensures status == "rejected" ==> r == {Approve}
    ensures status == "approved" ==> r == {Reject}
  {
    (if status == "pending" || status == "rejected" then {Approve} else {})
    + (if status == "pending" || status == "approved" then {Reject} else {})
  }

  /**
   * No button leads back to 'pending', and every button changes the status: a
   * rendered action never leaves the review where it was.
   */
  lemma ActionsLeavePending(status: string, a: Action)
    requires a in OfferedActions(status)
    ensures Target(a) != "pending"
    ensures Target(a) != status
    ensures status == "pending" || status == "approved" || status == "rejected"
  {
  }

  /** Approving or rejecting never adds a pending review. */
  lemma ModerationNeverAddsPending(reviews: seq<Review>, id: int, a: Action)
    ensures CountWhere(SetStatus(reviews, id, Target(a)), KeyIs(StatusOf, "pending"))
      <= CountWhere(reviews, KeyIs(StatusOf, "pending"))
  {
    ReplaceNeverAdds(reviews, HasId(id), WithStatus(Target(a)), KeyIs(StatusOf, "pending"));
  }

  /** `stats.approved + stats.pending + stats.rejected == stats.total` when every status is one of the three. */
  lemma StatusCountsAddUp(reviews: seq<Review>)
    requires forall r :: r in reviews ==> r.status == "approved" || r.status == "pending" || r.status == "rejected"
    ensures CountWhere(reviews, KeyIs(StatusOf, "approved")) + CountWhere(reviews, KeyIs(StatusOf, "pending"))
      + CountWhere(reviews, KeyIs(StatusOf, "rejected")) == |reviews|
  {
    ThreeWayCount(reviews, StatusOf, "approved", "pending", "rejected");
  }

  class ReviewManager {
    var reviews: seq<Review>
    var filterStatus: string
    var filterRating: string
    var currentPage: int

    constructor()
      ensures reviews == InitialReviews && filterStatus == "all" && filterRating == "all" && currentPage == 1
    {
      reviews := InitialReviews;
      filterStatus, filterRating := "all", "all";
      currentPage := 1;
    }

    /** `paginatedReviews` */
    function PageRows(): seq<Review>
      reads this
      requires currentPage >= 1
    {
      PageOf(Filtered(reviews, filterStatus, filterRating), currentPage, ItemsPerPage)
    }

    /** `handleApprove(id)` */
    method HandleApprove(id: int)
      modifies this`reviews
      ensures reviews == SetStatus(old(reviews), id, "approved")
    {
      reviews := ReplaceWhere(reviews, HasId(id), WithStatus("approved"));
    }

    /** `handleReject(id)` */
    method HandleReject(id: int)
      modifies this`reviews
      ensures reviews == SetStatus(old(reviews), id, "rejected")
    {
      reviews := ReplaceWhere(reviews, HasId(id), WithStatus("rejected"));
    }

    /** `handleDelete(id)`, `confirmed` being the answer to the confirmation dialog. */
    method HandleDelete(id: int, confirmed: bool)
      modifies this`reviews
      ensures confirmed ==> reviews == Filter(old(reviews), IdIsNot(id))
      ensures !confirmed ==> reviews == old(reviews)
    {
      if confirmed {
        reviews := Filter(reviews, IdIsNot(id));
      }
    }
  }

  /** Deleting keeps exactly the reviews with another id, in order. */
  lemma DeleteMeaning(reviews: seq<Review>, id: int)
    ensures forall r :: r in Filter(reviews, IdIsNot(id)) <==> r in reviews && r.id != id
    ensures IsSubsequence(Filter(reviews, IdIsNot(id)), reviews)
  {
    FilterIsSubsequence(reviews, IdIsNot(id));
    forall r | r in reviews && r.id != id
      ensures r in Filter(reviews, IdIsNot(id))
    {
      var k :| 0 <= k < |reviews| && reviews[k] == r;
    }
  }
}
