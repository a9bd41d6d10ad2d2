/**
 * The industries section of the home page (`components/home/Industries.jsx`): the
 * list of industries cut into slides of three for the fade carousel.
 */
module IndustrySlides {

  datatype Industry = Industry(title: string, description: string, features: seq<string>)

  const AllIndustries: seq<Industry> := [
    Industry("HEALTHCARE", "Autonomous delivery and disinfection.", ["Contactless", "UV Clean"]),
    Industry("RETAIL", "Enhancing customer experience.", ["Scanning", "Guidance"]),
    Industry("HOSPITALITY", "Elevating service standards.", ["Room Service", "Delivery"]),
    Industry("MANUFACTURING", "Streamlining production lines.", ["Transport", "Safety"]),
    Industry("LOGISTICS", "Optimizing supply chain flow.", ["Sorting", "Packing"]),
    Industry("EDUCATION", "Smart campus assistance.", ["Patrol", "Guide"])]

  const SlideSize := 3

  function Min(a: int, b: int): int
  {
    if a <= b then a else b
  }

  /** The slides laid end to end. */
  function Flatten<T>(slides: seq<seq<T>>): seq<T>
  {
    if slides == [] then [] else Flatten(slides[..|slides| - 1]) + slides[|slides| - 1]
  }

  /**
   * The chunking loop: `slides.push(items.slice(i, i + 3))` for `i = 0, 3, 6, …`
   * below the length.  Laid end to end the slides give back the list; slide `j`
   * starts at item `3j`; every slide has three items except possibly the last,
   * which is not empty; and there are `ceil(n / 3)` slides.
   */
  method Chunk<T>(items: seq<T>) returns (slides: seq<seq<T>>)
    ensures Flatten(slides) == items
    ensures |slides| == (|items| + SlideSize - 1) / SlideSize
    ensures forall j :: 0 <= j < |slides| ==> slides[j] == items[SlideSize * j..Min(SlideSize * j + SlideSize, |items|)]
    ensures forall j :: 0 <= j < |slides| ==> |slides[j]| > 0
    ensures forall j :: 0 <= j < |slides| - 1 ==> |slides[j]| == SlideSize
  {
    slides := [];
    var i := 0;
    while i < |items|
      invariant i == SlideSize * |slides|
      invariant i <= |items| + SlideSize - 1
      invariant Flatten(slides) == items[..Min(i, |items|)]
      invariant CutAt(items, slides)
    {
      var slide := items[i..Min(i + SlideSize, |items|)];
      CutStep(items, slides, slide);
      FlattenStep(slides, slide);
      assert items[..Min(i + SlideSize, |items|)] == items[..i] + slide;
      slides := slides + [slide];
      i := i + SlideSize;
    }
    assert items[..|items|] == items;
    CutShape(items, slides);
  }

  /** Slide `j` is the run of items from `3j`, which lies inside the list. */
  ghost predicate CutAt<T>(items: seq<T>, slides: seq<seq<T>>)
  {
    forall j :: 0 <= j < |slides| ==>
      SlideSize * j < |items| && slides[j] == items[SlideSize * j..Min(SlideSize * j + SlideSize, |items|)]
  }

  /** One more turn of the loop appends the next slide. */
  lemma CutStep<T>(items: seq<T>, slides: seq<seq<T>>, slide: seq<T>)
    requires CutAt(items, slides) && SlideSize * |slides| < |items|
    requires slide == items[SlideSize * |slides|..Min(SlideSize * |slides| + SlideSize, |items|)]
    ensures CutAt(items, slides + [slide])
  {
    var more := slides + [slide];
    forall j | 0 <= j < |more|
      ensures SlideSize * j < |items| && more[j] == items[SlideSize * j..Min(SlideSize * j + SlideSize, |items|)]
    {
      if j < |slides| {
        assert more[j] == slides[j];
      }
    }
  }

  /** Appending a slide extends the flattened list by it. */
  lemma FlattenStep<T>(slides: seq<seq<T>>, slide: seq<T>)
    ensures Flatten(slides + [slide]) == Flatten(slides) + slide
  {
    assert (slides + [slide])[..|slides|] == slides;
  }

  /** Every slide of the cut has items, and all but the last have three. */
  lemma CutShape<T>(items: seq<T>, slides: seq<seq<T>>)
    requires CutAt(items, slides)
    ensures forall j :: 0 <= j < |slides| ==> |slides[j]| > 0
    ensures forall j :: 0 <= j < |slides| - 1 ==> |slides[j]| == SlideSize
  {
    forall j | 0 <= j < |slides| - 1 ensures |slides[j]| == SlideSize {
      assert SlideSize * (j + 1) < |items|;
    }
  }

  /** The six industries make two slides of three. */
  method IndustryCarouselSlides() returns (slides: seq<seq<Industry>>)
    ensures |slides| == 2 && |slides[0]| == 3 && |slides[1]| == 3
    ensures slides[0] == AllIndustries[..3] && slides[1] == AllIndustries[3..]
  {
    slides := Chunk(AllIndustries);
  }
}
