/**
 * The catalogue page (`Products.jsx`): the effect that narrows the products by the search
 * term and the active filters and then sorts them, and the comparison list.
 */
module Catalogue {
  import opened Js
  import opened Sorting
  import opened ProductFilterPanel

  /** A catalogue entry: price in cents, rating in tenths of a star; absent feature flags are false. */
  datatype Item = Item(
    id: int, name: string, description: string, category: string,
    priceCents: int, ratingTenths: int, reviews: int,
    aiPowered: bool, voiceControl: bool, appControl: bool,
    autoCharging: bool, smartMapping: bool, scheduling: bool)

  /** The six products the page ships with. */
  const MockProducts: seq<Item> := [
    Item(1, "RoboClean Pro X1", "Advanced AI navigation with 3000Pa suction power", "Robot Cleaners",
         59999, 48, 1250, true, true, true, true, true, true),
    Item(2, "ChefBot Deluxe", "Automated cooking with 500+ recipe database", "Kitchen Robots",
         129999, 49, 890, true, true, true, false, false, true),
    Item(3, "LawnMaster AI", "Smart lawn mowing with weather adaptation", "Lawn Care",
         79999, 47, 650, true, false, true, false, true, true),
    Item(4, "ServeBot Elite", "Autonomous food and drink serving assistant", "Service Robots",
         89999, 46, 420, true, false, true, false, false, false),
    Item(5, "RoboClean Max", "Enhanced suction with 4000Pa power", "Robot Cleaners",
         69999, 47, 890, true, true, true, true, true, false),
    Item(6, "SmartMop Pro", "Vacuum and mop in one device", "Robot Cleaners",
         44999, 45, 654, true, false, true, true, false, false)]

  /** `featureMap[feature]`: an id outside the map reads `undefined`, which is falsy. */
  predicate HasFeature(p: Item, feature: string)
  {
    if feature == "ai-powered" then p.aiPowered
    else if feature == "voice-control" then p.voiceControl
    else if feature == "app-control" then p.appControl
    else if feature == "auto-charging" then p.autoCharging
    else if feature == "mapping" then p.smartMapping
    else if feature == "scheduling" then p.scheduling
    else false
  }

  // The single predicates, in the order the effect applies them.
  function MentionsTerm(term: string): Item -> bool
  {
    (p: Item) => IncludesIgnoringCase(p.name, term) || IncludesIgnoringCase(p.description, term)
  }

  function InCategory(f: Filters): Item -> bool
  {
    (p: Item) => p.category == f.category
  }

  /** The price filter, applied only when a price range is set. */
  function InPriceRange(f: Filters): Item -> bool
  {
    (p: Item) => f.priceRange.Some? ==> (p.priceCents >= f.priceRange.value.minCents
      && (f.priceRange.value.maxCents.None? || p.priceCents <= f.priceRange.value.maxCents.value))
  }

  function RatedAtLeast(f: Filters): Item -> bool
  {
    (p: Item) => p.ratingTenths >= f.minRating * 10
  }

  function HasAllFeatures(f: Filters): Item -> bool
  {
    (p: Item) => forall i :: 0 <= i < |f.features| ==> HasFeature(p, f.features[i])
  }

  /** A product is listed when it passes every filter that is switched on. */
  predicate Visible(term: string, f: Filters, p: Item)
  {
    (term == "" || IncludesIgnoringCase(p.name, term) || IncludesIgnoringCase(p.description, term))
    && (f.category == "" || f.category == "all" || p.category == f.category)
    && (f.priceRange.None? ||
        (p.priceCents >= f.priceRange.value.minCents
         && (f.priceRange.value.maxCents.None? || p.priceCents <= f.priceRange.value.maxCents.value)))
    && (f.minRating == 0 || p.ratingTenths >= f.minRating * 10)
    && (forall i :: 0 <= i < |f.features| ==> HasFeature(p, f.features[i]))
  }

  function VisibleTo(term: string, f: Filters): Item -> bool
  {
    (p: Item) => Visible(term, f, p)
  }

  ghost function Chain(term: string, f: Filters): Item -> bool
  {
    var a := Also(AcceptAll, term != "", MentionsTerm(term));
    var b := Also(a, f.category != "" && f.category != "all", InCategory(f));
    var c := Also(b, f.priceRange.Some?, InPriceRange(f));
    var d := Also(c, f.minRating != 0, RatedAtLeast(f));
    Also(d, |f.features| > 0, HasAllFeatures(f))
  }

  lemma ChainIsVisible(s: seq<Item>, term: string, f: Filters)
    ensures Filter(s, Chain(term, f)) == Filter(s, VisibleTo(term, f))
  {
    FilterCongruent(s, Chain(term, f), VisibleTo(term, f));
  }

  /** Runs the filters of the effect in its order, each only when it is switched on. */
  method FilterProducts(products: seq<Item>, term: string, f: Filters) returns (result: seq<Item>)
    ensures result == Filter(products, VisibleTo(term, f))
  {
    result := products;
    FilterAll(products, AcceptAll);
    result := ApplyFilter(result, term != "", MentionsTerm(term), products, AcceptAll);
    ghost var kept := Also(AcceptAll, term != "", MentionsTerm(term));
    result := ApplyFilter(result, f.category != "" && f.category != "all", InCategory(f), products, kept);
    kept := Also(kept, f.category != "" && f.category != "all", InCategory(f));
    result := ApplyFilter(result, f.priceRange.Some?, InPriceRange(f), products, kept);
    kept := Also(kept, f.priceRange.Some?, InPriceRange(f));
    result := ApplyFilter(result, f.minRating != 0, RatedAtLeast(f), products, kept);
    kept := Also(kept, f.minRating != 0, RatedAtLeast(f));
    result := ApplyFilter(result, |f.features| > 0, HasAllFeatures(f), products, kept);
    ChainIsVisible(products, term, f);
  }

  /**
   * One step of the effect, `if (on) result = result.filter(step)`: on a list that
   * has passed the earlier filters, the products that also pass this one.
   */
  method ApplyFilter(result: seq<Item>, on: bool, step: Item -> bool, ghost products: seq<Item>, ghost kept: Item -> bool)
    returns (r: seq<Item>)
    requires result == Filter(products, kept)
    ensures r == Filter(products, Also(kept, on, step))
  {
    r := result;
    if on {
      r := Filter(result, step);
    }
    FilterStep(products, kept, step, on);
  }

  function Price(p: Item): int { p.priceCents }
  function Rating(p: Item): int { p.ratingTenths }
  function Popularity(p: Item): int { p.reviews }

  /** The sort a `sortBy` value asks for: its key and direction, or none ('featured' and anything else). */
  datatype Order = Unsorted | By(key: Item -> int, descending: bool)

  function OrderFor(sortBy: string): Order
  {
    if sortBy == "price-low" then By(Price, false)
    else if sortBy == "price-high" then By(Price, true)
    else if sortBy == "rating" then By(Rating, true)
    else if sortBy == "popular" then By(Popularity, true)
    else Unsorted
  }

  /** The effect: filter, then sort the copy in place by the chosen order. */
  method VisibleProducts(products: seq<Item>, term: string, f: Filters, sortBy: string) returns (result: seq<Item>)
    ensures multiset(result) == multiset(Filter(products, VisibleTo(term, f)))
    ensures OrderFor(sortBy).By? ==> SortedBy(result, OrderFor(sortBy).key, OrderFor(sortBy).descending)
    ensures OrderFor(sortBy).By? ==>
      KeepsTieOrder(Filter(products, VisibleTo(term, f)), result, OrderFor(sortBy).key, OrderFor(sortBy).descending)
    ensures OrderFor(sortBy).Unsorted? ==> result == Filter(products, VisibleTo(term, f))
  {
    var filtered := FilterProducts(products, term, f);
    var order := OrderFor(sortBy);
    if order.Unsorted? {
      return filtered;
    }
    var a := new Item[|filtered|](i requires 0 <= i < |filtered| => filtered[i]);
    assert a[..] == filtered;
    SortInPlace(a, order.key, order.descending);
    result := a[..];
  }

  /** 'price-low' lists the cheapest first; 'price-high', 'rating' and 'popular' the largest first. */
  lemma SortOrders()
    ensures OrderFor("price-low") == By(Price, false)
    ensures OrderFor("price-high") == By(Price, true)
    ensures OrderFor("rating") == By(Rating, true)
    ensures OrderFor("popular") == By(Popularity, true)
    ensures OrderFor("featured") == Unsorted
  {
  }

  /** An empty search term and `{}` list every product. */
  lemma NoFiltersListEverything(products: seq<Item>)
    ensures Filter(products, VisibleTo("", NoFilters)) == products
  {
    FilterAll(products, VisibleTo("", NoFilters));
  }

  /** An unknown feature id excludes every product. */
  lemma UnknownFeatureExcludesAll(products: seq<Item>, f: Filters, term: string)
    requires exists i :: 0 <= i < |f.features| && f.features[i] !in FeatureIds
    ensures Filter(products, VisibleTo(term, f)) == []
  {
    var i :| 0 <= i < |f.features| && f.features[i] !in FeatureIds;
    assert forall p :: !HasFeature(p, f.features[i]);
    NothingVisible(products, VisibleTo(term, f));
  }

  lemma {:induction false} NothingVisible(s: seq<Item>, p: Item -> bool)
    requires forall x :: !p(x)
    ensures Filter(s, p) == []
  {
    if s != [] {
      NothingVisible(s[1..], p);
    }
  }

  /**
   * The panel's category ids ('cleaners', 'kitchen', ...) are not the category names the
   * shipped products carry ('Robot Cleaners', ...), so choosing any category but 'all'
   * lists no product at all.
   */
  lemma CategoryOptionsMatchNoProduct(term: string, f: Filters)
    requires f.category in CategoryOptions[1..]
    ensures Filter(MockProducts, VisibleTo(term, f)) == []
  {
    forall p | p in MockProducts
      ensures !VisibleTo(term, f)(p)
    {
    }
    NoneVisible(MockProducts, VisibleTo(term, f));
  }

  lemma {:induction false} NoneVisible(s: seq<Item>, p: Item -> bool)
    requires forall x :: x in s ==> !p(x)
    ensures Filter(s, p) == []
  {
    if s != [] {
      NoneVisible(s[1..], p);
    }
  }

  /** `handleRemoveFromComparison(id)`: keep the compared products whose id differs. */
  function WithoutProduct(compared: seq<Item>, id: int): (r: seq<Item>)
    ensures forall i :: 0 <= i < |r| ==> r[i].id != id
    ensures forall i :: 0 <= i < |compared| && compared[i].id != id ==> compared[i] in r
    ensures IsSubsequence(r, compared)
  {
    var keep := (p: Item) => p.id != id;
    FilterIsSubsequence(compared, keep);
    Filter(compared, keep)
  }

  /** The page state the effect and the handlers read and write. */
  class ProductsPage {
    var products: seq<Item>
    var filteredProducts: seq<Item>
    var sortBy: string
    var filters: Filters
    var searchTerm: string
    var compareProducts: seq<Item>

    /** Before the products arrive: nothing listed, 'featured' order, `{}` and an empty search. */
    constructor()
      ensures products == [] && filteredProducts == [] && compareProducts == []
      ensures sortBy == "featured" && filters == NoFilters && searchTerm == ""
    {
      products := [];
      filteredProducts := [];
      sortBy := "featured";
      filters := NoFilters;
      searchTerm := "";
      compareProducts := [];
    }

    /** The effect that runs whenever the products, filters, search term or order change. */
    method Refresh()
      modifies this
      ensures multiset(filteredProducts) == multiset(Filter(products, VisibleTo(searchTerm, filters)))
      ensures OrderFor(sortBy).By? ==> SortedBy(filteredProducts, OrderFor(sortBy).key, OrderFor(sortBy).descending)
      ensures OrderFor(sortBy).By? ==> KeepsTieOrder(Filter(products, VisibleTo(searchTerm, filters)), filteredProducts,
                                                     OrderFor(sortBy).key, OrderFor(sortBy).descending)
      ensures products == old(products) && filters == old(filters) && searchTerm == old(searchTerm)
      ensures sortBy == old(sortBy) && compareProducts == old(compareProducts)
    {
      filteredProducts := VisibleProducts(products, searchTerm, filters, sortBy);
    }

    /** `handleFilterChange(newFilters)` */
    method HandleFilterChange(newFilters: Filters)
      modifies this
      ensures filters == newFilters
      ensures products == old(products) && searchTerm == old(searchTerm) && sortBy == old(sortBy)
      ensures compareProducts == old(compareProducts) && filteredProducts == old(filteredProducts)
    {
      filters := newFilters;
    }

    /** `handleSearch(term)` */
    method HandleSearch(term: string)
      modifies this
      ensures searchTerm == term
      ensures products == old(products) && filters == old(filters) && sortBy == old(sortBy)
      ensures compareProducts == old(compareProducts) && filteredProducts == old(filteredProducts)
    {
      searchTerm := term;
    }

    /** `handleRemoveFromComparison(id)` */
    method HandleRemoveFromComparison(id: int)
      modifies this
      ensures compareProducts == WithoutProduct(old(compareProducts), id)
      ensures products == old(products) && filters == old(filters) && searchTerm == old(searchTerm)
      ensures sortBy == old(sortBy) && filteredProducts == old(filteredProducts)
    {
      compareProducts := WithoutProduct(compareProducts, id);
    }
  }
}
