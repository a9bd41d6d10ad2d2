/**
 * The testimonial slider of the home page (`components/home/Testimonials.jsx`):
 * a current index moved by the arrows and the dots, and the three cards shown
 * from it onward, wrapping round the list.
 */
module TestimonialSlider {
  import opened IndexWrap

  /** A testimonial; the rating is in tenths of a star (4.5 is 45). */
  datatype Testimonial = Testimonial(id: nat, name: string, role: string, ratingTenths: nat, location: string)

  const Testimonials: seq<Testimonial> := [
    Testimonial(1, "Sarah Johnson", "Homemaker", 50, "San Francisco, CA"),
    Testimonial(2, "Michael Chen", "Tech Entrepreneur", 50, "Austin, TX"),
    Testimonial(3, "Emily Rodriguez", "Interior Designer", 45, "New York, NY"),
    Testimonial(4, "David Thompson", "Retired Engineer", 50, "Seattle, WA"),
    Testimonial(5, "Lisa Park", "Small Business Owner", 50, "Los Angeles, CA"),
    Testimonial(6, "James Wilson", "Marketing Director", 45, "Chicago, IL")]

  /** How many cards are shown at once. */
  const VisibleCount := 3

  lemma IdsFollowPositions()
    ensures forall k :: 0 <= k < |Testimonials| ==> Testimonials[k].id == k + 1
  {
  }

  /** The position `k` places after `c` on the list, wrapping round at most once. */
  function WrappedOffset(c: nat, k: nat): nat
  {
    if c + k < |Testimonials| then c + k else c + k - |Testimonials|
  }

  lemma WrapOnce(c: nat, k: nat)
    requires c < |Testimonials| && k < |Testimonials|
    ensures (c + k) % |Testimonials| == WrappedOffset(c, k)
  {
    if c + k < |Testimonials| {
      DivModUnique(c + k, |Testimonials|, 0, c + k);
    } else {
      DivModUnique(c + k, |Testimonials|, 1, c + k - |Testimonials|);
    }
  }

  /** The card `k` places after position `c`, wrapping round the list. */
  function CardAt(c: nat, k: nat): Testimonial
  {
    Testimonials[(c + k) % |Testimonials|]
  }

  /** The cards from any start position carry different ids. */
  lemma VisibleAreDistinct(c: nat)
    requires c < |Testimonials|
    ensures forall j, k :: 0 <= j < k < VisibleCount ==> CardAt(c, j).id != CardAt(c, k).id
  {
    IdsFollowPositions();
    forall k | 0 <= k < VisibleCount
      ensures (c + k) % |Testimonials| == WrappedOffset(c, k)
    {
      WrapOnce(c, k);
    }
  }

  class Slider {
    var currentIndex: nat

    predicate Valid()
      reads this
    {
      currentIndex < |Testimonials|
    }

    /** The slider starts on the first testimonial. */
    constructor()
      ensures currentIndex == 0 && Valid()
    {
      currentIndex := 0;
    }

    /** `nextTestimonial()` */
    method NextTestimonial()
      requires Valid()
      modifies this
      ensures Valid() && currentIndex == Next(old(currentIndex), |Testimonials|)
    {
      currentIndex := (currentIndex + 1) % |Testimonials|;
    }

    /** `prevTestimonial()` */
    method PrevTestimonial()
      requires Valid()
      modifies this
      ensures Valid() && currentIndex == Prev(old(currentIndex), |Testimonials|)
    {
      currentIndex := (currentIndex - 1 + |Testimonials|) % |Testimonials|;
    }

    /** A dot's click: there is one dot per testimonial. */
    method SelectDot(index: nat)
      requires index < |Testimonials|
      modifies this
      ensures Valid() && currentIndex == index
    {
      currentIndex := index;
    }

    /**
     * `getVisibleTestimonials()`: the testimonials at the current index and the two
     * after it, wrapping round; they are three different testimonials.
     */
    method GetVisibleTestimonials() returns (visible: seq<Testimonial>)
      requires Valid()
      ensures |visible| == VisibleCount
      ensures forall k :: 0 <= k < VisibleCount ==> visible[k] == CardAt(currentIndex, k)
      ensures forall j, k :: 0 <= j < k < VisibleCount ==> visible[j].id != visible[k].id
    {
      visible := [];
      for i := 0 to VisibleCount
        invariant |visible| == i
        invariant forall k :: 0 <= k < i ==> visible[k] == CardAt(currentIndex, k)
      {
        visible := visible + [CardAt(currentIndex, i)];
      }
      VisibleAreDistinct(currentIndex);
    }
  }
}
