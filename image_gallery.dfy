/**
 * The product image gallery (`components/product-detail/ImageGallery.jsx`): the
 * selected image, moved by the arrows (wrapping at both ends) and the thumbnails,
 * over the product's images or four placeholders when it has none.
 */
module ProductGallery {
  import IndexWrap

  datatype GalleryImage = GalleryImage(id: nat, url: string, alt: string)

  const DefaultImages: seq<GalleryImage> := [
    GalleryImage(1, "🤖", "Product view 1"),
    GalleryImage(2, "⚙️", "Product view 2"),
    GalleryImage(3, "🔧", "Product view 3"),
    GalleryImage(4, "📱", "Product view 4")]

  /** `images.length > 0 ? images : defaultImages` */
  function DisplayImages(images: seq<GalleryImage>): (r: seq<GalleryImage>)
    ensures |r| > 0
    ensures |images| > 0 ==> r == images
    ensures |images| == 0 ==> r == DefaultImages
  {
    if |images| > 0 then images else DefaultImages
  }

  /** `prev === displayImages.length - 1 ? 0 : prev + 1` */
  function NextIndex(i: nat, n: nat): nat
  {
    if i == n - 1 then 0 else i + 1
  }

  /** `prev === 0 ? displayImages.length - 1 : prev - 1` */
  function PreviousIndex(i: nat, n: nat): nat
    requires n > 0
  {
    if i == 0 then n - 1 else i - 1
  }

  /**
   * On a selected index within the list, the gallery's comparisons move exactly as
   * the modular step of the sliders does, so they keep the index in range and undo
   * each other.
   */
  lemma GalleryStepsAreModular(i: nat, n: nat)
    requires i < n
    ensures NextIndex(i, n) == IndexWrap.Next(i, n) && NextIndex(i, n) < n
    ensures PreviousIndex(i, n) == IndexWrap.Prev(i, n) && PreviousIndex(i, n) < n
    ensures PreviousIndex(NextIndex(i, n), n) == i && NextIndex(PreviousIndex(i, n), n) == i
  {
    IndexWrap.PrevNextInverse(i, n);
  }

  class Gallery {
    /** The `images` prop. */
    var images: seq<GalleryImage>
    var selectedIndex: nat

    predicate Valid()
      reads this
    {
      selectedIndex < |DisplayImages(images)|
    }

    constructor(images: seq<GalleryImage>)
      ensures this.images == images && selectedIndex == 0 && Valid()
    {
      this.images := images;
      selectedIndex := 0;
    }

    /** The image in the main view. */
    function Selected(): GalleryImage
      requires Valid()
      reads this
    {
      DisplayImages(images)[selectedIndex]
    }

    /** The counter `selectedIndex + 1 / displayImages.length`: a position from 1 to the count. */
    function Counter(): (r: (nat, nat))
      requires Valid()
      reads this
      ensures 1 <= r.0 <= r.1 && r.1 == |DisplayImages(images)|
      ensures DisplayImages(images)[r.0 - 1] == Selected()
    {
      (selectedIndex + 1, |DisplayImages(images)|)
    }

    /** The arrows and the thumbnails are rendered only when there is more than one image. */
    predicate ShowsNavigation()
      reads this
    {
      |DisplayImages(images)| > 1
    }

    /** `handlePrevious()` */
    method HandlePrevious()
      requires Valid()
      modifies this`selectedIndex
      ensures Valid() && selectedIndex == PreviousIndex(old(selectedIndex), |DisplayImages(images)|)
      ensures selectedIndex == IndexWrap.Prev(old(selectedIndex), |DisplayImages(images)|)
    {
      var n := |DisplayImages(images)|;
      GalleryStepsAreModular(selectedIndex, n);
      selectedIndex := if selectedIndex == 0 then n - 1 else selectedIndex - 1;
    }

    /** `handleNext()` */
    method HandleNext()
      requires Valid()
      modifies this`selectedIndex
      ensures Valid() && selectedIndex == NextIndex(old(selectedIndex), |DisplayImages(images)|)
      ensures selectedIndex == IndexWrap.Next(old(selectedIndex), |DisplayImages(images)|)
    {
      var n := |DisplayImages(images)|;
      GalleryStepsAreModular(selectedIndex, n);
      selectedIndex := if selectedIndex == n - 1 then 0 else selectedIndex + 1;
    }

    /** `handleThumbnailClick(index)`: there is one thumbnail per image. */
    method HandleThumbnailClick(index: nat)
      requires index < |DisplayImages(images)|
      modifies this`selectedIndex
      ensures Valid() && selectedIndex == index && Selected() == DisplayImages(images)[index]
    {
      selectedIndex := index;
    }
  }
}
