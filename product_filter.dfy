/**
 * The filter panel of the catalogue page (`ProducrFilter.jsx`): it edits the active
 * filter object and reports how many filters are on.
 */
module ProductFilterPanel {
  import opened Js

  /** A price band from the panel, in cents; `maxCents == None` is the open band (`max: Infinity`). */
  datatype PriceRange = PriceRange(minCents: int, maxCents: Option<int>)

  /**
   * The filter object. A key the object does not hold reads as its falsy value here:
   * `category == ""`, `priceRange == None`, `minRating == 0`, `features == []`.
   * `minRating` is a whole number of stars.
   */
  datatype Filters = Filters(category: string, priceRange: Option<PriceRange>, minRating: int, features: seq<string>)

  /** `{}` */
  const NoFilters := Filters("", None, 0, [])

  /** The category options, 'all' first. */
  const CategoryOptions: seq<string> := ["all", "cleaners", "kitchen", "lawn", "service", "smart-home"]

  /** The price bands. */
  const PriceRanges: seq<PriceRange> := [
    PriceRange(0, Some(50000)), PriceRange(50000, Some(100000)), PriceRange(100000, Some(150000)),
    PriceRange(150000, Some(200000)), PriceRange(200000, None)]

  /** The feature ids. */
  const FeatureIds: seq<string> := ["ai-powered", "voice-control", "app-control", "auto-charging", "mapping", "scheduling"]

  /** `handleCategoryChange(id)`: `{...activeFilters, category: id}` */
  function ChangeCategory(active: Filters, id: string): (r: Filters)
    ensures r.category == id
    ensures r.priceRange == active.priceRange && r.minRating == active.minRating && r.features == active.features
  {
    active.(category := id)
  }

  /** `handlePriceChange(range)`: `{...activeFilters, priceRange}` */
  function ChangePrice(active: Filters, range: PriceRange): (r: Filters)
    ensures r.priceRange == Some(range)
    ensures r.category == active.category && r.minRating == active.minRating && r.features == active.features
  {
    active.(priceRange := Some(range))
  }

  /** `handleRatingChange(rating)`: `{...activeFilters, minRating: rating}` */
  function ChangeRating(active: Filters, rating: int): (r: Filters)
    ensures r.minRating == rating
    ensures r.category == active.category && r.priceRange == active.priceRange && r.features == active.features
  {
    active.(minRating := rating)
  }

  function Other(id: string): string -> bool
  {
    (f: string) => f != id
  }

  /** The feature list after toggling `id`: every copy removed if present, else appended. */
  function ToggleFeature(features: seq<string>, id: string): (r: seq<string>)
    ensures id in r <==> id !in features
    ensures forall x :: x != id ==> (x in r <==> x in features)
    ensures id !in features ==> r == features + [id]
  {
    if id in features then Filter(features, Other(id)) else features + [id]
  }

  /** `handleFeatureToggle(id)` */
  function HandleFeatureToggle(active: Filters, id: string): (r: Filters)
    ensures r.features == ToggleFeature(active.features, id)
    ensures r.category == active.category && r.priceRange == active.priceRange && r.minRating == active.minRating
  {
    active.(features := ToggleFeature(active.features, id))
  }

  /** Toggling a feature that is off, then toggling it again, restores the list exactly. */
  lemma ToggleTwiceRestoresAbsent(features: seq<string>, id: string)
    requires id !in features
    ensures ToggleFeature(ToggleFeature(features, id), id) == features
  {
    var once := features + [id];
    FilterAppend(features, [id], Other(id));
    FilterAll(features, Other(id));
    assert Filter([id], Other(id)) == [];
  }

  /**
   * Toggling a feature that is on, then toggling it again, keeps the same set of features;
   * the feature moves to the end.
   */
  lemma ToggleTwiceKeepsSet(features: seq<string>, id: string)
    requires id in features
    ensures forall x :: x in ToggleFeature(ToggleFeature(features, id), id) <==> x in features
    ensures ToggleFeature(ToggleFeature(features, id), id) == Filter(features, Other(id)) + [id]
  {
  }

  /** Filtering out `id` drops exactly its copies. */
  lemma {:induction false} FilterOutCount(s: seq<string>, id: string)
    ensures |Filter(s, Other(id))| == |s| - multiset(s)[id]
  {
    if s != [] {
      FilterOutCount(s[1..], id);
      assert s == [s[0]] + s[1..];
      assert multiset(s) == multiset([s[0]]) + multiset(s[1..]);
    }
  }

  /**
   * `getActiveFilterCount()`: one for a category other than 'all', one for a price
   * range, one for a minimum rating, and one per selected feature.
   */
  function ActiveCount(f: Filters): (count: int)
    ensures |f.features| <= count <= 3 + |f.features|
    ensures count == |f.features| <==>
      (f.category == "" || f.category == "all") && f.priceRange.None? && f.minRating == 0
  {
    (if f.category != "" && f.category != "all" then 1 else 0)
    + (if f.priceRange.Some? then 1 else 0)
    + (if f.minRating != 0 then 1 else 0)
    + |f.features|
  }

  /** `clearAllFilters()` emits `{}`, which counts no filter. */
  lemma ClearedCountsNothing()
    ensures ActiveCount(NoFilters) == 0
  {
  }

  /**
   * Toggling a feature that is off adds one to the count; toggling one that is on
   * subtracts the number of its copies (one, when the list has no repeats).
   */
  lemma ToggleChangesCount(active: Filters, id: string)
    ensures id !in active.features ==> ActiveCount(HandleFeatureToggle(active, id)) == ActiveCount(active) + 1
    ensures id in active.features ==>
      ActiveCount(HandleFeatureToggle(active, id)) == ActiveCount(active) - multiset(active.features)[id]
  {
    FilterOutCount(active.features, id);
  }

  /** The category radio `option` is checked: the active category, or 'all' when none is set. */
  predicate CategoryChecked(active: Filters, option: string)
  {
    if active.category == "" then option == "all" else active.category == option
  }

  /** Whatever the filters, at most one category option is checked, and 'all' when no category is set. */
  lemma OneCategoryChecked(active: Filters)
    ensures forall i, j :: 0 <= i < j < |CategoryOptions| ==>
      !(CategoryChecked(active, CategoryOptions[i]) && CategoryChecked(active, CategoryOptions[j]))
    ensures active.category == "" ==> CategoryChecked(active, CategoryOptions[0])
  {
  }
}
