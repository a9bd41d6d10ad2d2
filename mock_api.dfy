/**
 * The in-memory API the storefront talks to (`services/mockapi.js`): four module-level
 * arrays of records (products, categories, reviews, messages) read through filters and
 * lookups by id, and changed in place by push, splice, element replacement and field
 * assignment. Every call answers `{success: true, data, message}` or
 * `{success: false, error}`.
 */
module MockApi {
  import opened Js

  /** The answer of an API call. `message` is "" where the call sends none. */
  datatype Reply<T> = Ok(data: T, message: string) | Err(error: string)

  // ---------------------------------------------------------------------------
  // Records and their spreads
  // ---------------------------------------------------------------------------

  /** Prices in cents, ratings in tenths of a star. */
  datatype Product = Product(
    id: int, name: string, description: string, category: string, priceCents: int, ratingTenths: int)

  /** The fields a create or update call supplies; `None` is a field the call leaves out. */
  datatype ProductPatch = ProductPatch(
    id: Option<int>, name: Option<string>, description: Option<string>, category: Option<string>,
    priceCents: Option<int>, ratingTenths: Option<int>)

  datatype Category = Category(id: int, name: string, description: string, icon: string, productCount: int)

  datatype CategoryPatch = CategoryPatch(
    id: Option<int>, name: Option<string>, description: Option<string>, icon: Option<string>,
    productCount: Option<int>)

  datatype Review = Review(
    id: int, productId: int, userName: string, rating: int, comment: string, status: string)

  datatype Message = Message(
    id: int, name: string, email: string, subject: string, message: string,
    status: string, priority: string, starred: bool)

  /** What the contact form sends. */
  datatype MessagePatch = MessagePatch(
    id: Option<int>, name: Option<string>, email: Option<string>, subject: Option<string>,
    message: Option<string>)

  function Pick<T>(supplied: Option<T>, current: T): T
  {
    if supplied.Some? then supplied.value else current
  }

  /** `{...p, ...patch}` */
  function PatchProduct(p: Product, patch: ProductPatch): Product
  {
    Product(Pick(patch.id, p.id), Pick(patch.name, p.name), Pick(patch.description, p.description),
            Pick(patch.category, p.category), Pick(patch.priceCents, p.priceCents),
            Pick(patch.ratingTenths, p.ratingTenths))
  }

  /** `{...c, ...patch}` */
  function PatchCategory(c: Category, patch: CategoryPatch): Category
  {
    Category(Pick(patch.id, c.id), Pick(patch.name, c.name), Pick(patch.description, c.description),
             Pick(patch.icon, c.icon), Pick(patch.productCount, c.productCount))
  }

  /** A field the spread leaves out is absent; the model writes absent text as "" and absent numbers as 0. */
  function BlankProduct(id: int): Product
  {
    Product(id, "", "", "", 0, 0)
  }

  function BlankCategory(id: int): Category
  {
    Category(id, "", "", "", 0)
  }

  /** `{id: mockProducts.length + 1, ...productData}` */
  function NewProduct(store: seq<Product>, data: ProductPatch): (r: Product)
    ensures r.id == (if data.id.Some? then data.id.value else |store| + 1)
    ensures r.name == (if data.name.Some? then data.name.value else "")
    ensures r.description == (if data.description.Some? then data.description.value else "")
    ensures r.category == (if data.category.Some? then data.category.value else "")
    ensures r.priceCents == (if data.priceCents.Some? then data.priceCents.value else 0)
    ensures r.ratingTenths == (if data.ratingTenths.Some? then data.ratingTenths.value else 0)
  {
    PatchProduct(BlankProduct(|store| + 1), data)
  }

  /** `{id: mockCategories.length + 1, ...categoryData, productCount: 0}` */
  function NewCategory(store: seq<Category>, data: CategoryPatch): (r: Category)
    ensures r.id == (if data.id.Some? then data.id.value else |store| + 1)
    ensures r.productCount == 0
    ensures r.name == (if data.name.Some? then data.name.value else "")
    ensures r.description == (if data.description.Some? then data.description.value else "")
    ensures r.icon == (if data.icon.Some? then data.icon.value else "")
  {
    PatchCategory(BlankCategory(|store| + 1), data).(productCount := 0)
  }

  /** `{id: mockMessages.length + 1, ...messageData, status: 'unread', priority: 'normal', starred: false}` */
  function NewMessage(store: seq<Message>, data: MessagePatch): (r: Message)
    ensures r.id == (if data.id.Some? then data.id.value else |store| + 1)
    ensures r.status == "unread" && r.priority == "normal" && !r.starred
    ensures r.name == (if data.name.Some? then data.name.value else "")
    ensures r.email == (if data.email.Some? then data.email.value else "")
    ensures r.subject == (if data.subject.Some? then data.subject.value else "")
    ensures r.message == (if data.message.Some? then data.message.value else "")
  {
    Message(Pick(data.id, |store| + 1), Pick(data.name, ""), Pick(data.email, ""),
            Pick(data.subject, ""), Pick(data.message, ""), "unread", "normal", false)
  }

  /** A patch that supplies nothing. */
  const NoProductChanges := ProductPatch(None, None, None, None, None, None)

  /** Spreading an empty patch changes nothing. */
  lemma EmptyPatchIsIdentity(p: Product)
    ensures PatchProduct(p, NoProductChanges) == p
  {
  }

  /** Spreading the same patch twice is spreading it once. */
  lemma PatchIdempotent(p: Product, patch: ProductPatch)
    ensures PatchProduct(PatchProduct(p, patch), patch) == PatchProduct(p, patch)
  {
  }

  /** The later of two spreads wins on every field both supply. */
  lemma PatchesCompose(p: Product, a: ProductPatch, b: ProductPatch)
    ensures PatchProduct(PatchProduct(p, a), b) ==
      PatchProduct(p, ProductPatch(
        if b.id.Some? then b.id else a.id,
        if b.name.Some? then b.name else a.name,
        if b.description.Some? then b.description else a.description,
        if b.category.Some? then b.category else a.category,
        if b.priceCents.Some? then b.priceCents else a.priceCents,
        if b.ratingTenths.Some? then b.ratingTenths else a.ratingTenths))
  {
  }

  // ---------------------------------------------------------------------------
  // Lookup by id
  // ---------------------------------------------------------------------------

  /** `recordId === parseInt(id)` */
  predicate HasId(recordId: int, id: string)
  {
    FromInt(recordId) == ParseInt(id)
  }

  function IdIs<R>(key: R -> int, id: string): R -> bool
  {
    x => HasId(key(x), id)
  }

  /** `store.findIndex(r => r.id === parseInt(id))`; `find` returns the record at this index. */
  function Lookup<R>(store: seq<R>, key: R -> int, id: string): (k: int)
    ensures -1 <= k < |store|
    ensures k == -1 <==> forall i :: 0 <= i < |store| ==> !HasId(key(store[i]), id)
    ensures k >= 0 ==> HasId(key(store[k]), id) && forall i :: 0 <= i < k ==> !HasId(key(store[i]), id)
  {
    FindIndex(store, IdIs(key, id))
  }

  function ProductKey(p: Product): int { p.id }
  function CategoryKey(c: Category): int { c.id }
  function ReviewKey(r: Review): int { r.id }
  function MessageKey(m: Message): int { m.id }

  /** No two records share an id. */
  ghost predicate UniqueIds<R>(store: seq<R>, key: R -> int)
  {
    forall i, j :: 0 <= i < j < |store| ==> key(store[i]) != key(store[j])
  }

  /** The decimal text of a record's id finds that record. */
  lemma HasOwnId(n: int)
    ensures HasId(n, DecimalString(n))
  {
    ParseIntOfDecimalString(n);
  }

  /**
   * A record pushed with an id no other record has is found by that id, at the end:
   * a create followed by a lookup of the new id returns the new record.
   */
  lemma {:induction false} LookupAfterPush<R>(store: seq<R>, key: R -> int, x: R)
    requires forall i :: 0 <= i < |store| ==> key(store[i]) != key(x)
    ensures Lookup(store + [x], key, DecimalString(key(x))) == |store|
  {
    var id := DecimalString(key(x));
    ParseIntOfDecimalString(key(x));
    forall i | 0 <= i < |store|
      ensures !HasId(key((store + [x])[i]), id)
    {
      assert (store + [x])[i] == store[i];
      ParseIntOfDecimalString(key(store[i]));
    }
    assert (store + [x])[|store|] == x;
  }

  /** With unique ids, deleting the record an id finds leaves nothing for that id to find. */
  lemma LookupAfterDelete<R>(store: seq<R>, key: R -> int, id: string)
    requires UniqueIds(store, key)
    requires Lookup(store, key, id) >= 0
    ensures Lookup(RemoveAt(store, Lookup(store, key, id)), key, id) == -1
  {
    var k := Lookup(store, key, id);
    var r := RemoveAt(store, k);
    forall i | 0 <= i < |r|
      ensures !HasId(key(r[i]), id)
    {
      if i >= k {
        assert r[i] == store[i + 1];
        assert key(store[k]) != key(store[i + 1]);
      }
    }
  }

  /**
   * New ids are `length + 1`, so once a record other than the last is deleted, the next
   * create reuses the id of the record that is now last: with ids 1..n, deleting any
   * record but the last leaves a record whose id is the new length plus one.
   */
  lemma NextIdCollidesAfterDelete<R>(store: seq<R>, key: R -> int, k: int)
    requires forall i :: 0 <= i < |store| ==> key(store[i]) == i + 1
    requires 0 <= k < |store| - 1
    ensures var rest := RemoveAt(store, k);
      |rest| > 0 && key(rest[|rest| - 1]) == |rest| + 1
  {
    var rest := RemoveAt(store, k);
    assert rest[|rest| - 1] == store[|store| - 1];
  }

  // ---------------------------------------------------------------------------
  // Query filters
  // ---------------------------------------------------------------------------

  /** `productsAPI.getAll` filters; "" and 0 are the falsy values that switch a filter off. */
  datatype ProductFilters = ProductFilters(
    category: string, minPriceCents: int, maxPriceCents: int, minRatingTenths: int, search: string)

  predicate ProductCategoryActive(f: ProductFilters)
  {
    f.category != "" && f.category != "all"
  }

  /** A product passes every filter that is switched on. */
  predicate ProductMatches(f: ProductFilters, p: Product)
  {
    (!ProductCategoryActive(f) || p.category == f.category)
    && (f.minPriceCents == 0 || p.priceCents >= f.minPriceCents)
    && (f.maxPriceCents == 0 || p.priceCents <= f.maxPriceCents)
    && (f.minRatingTenths == 0 || p.ratingTenths >= f.minRatingTenths)
    && (f.search == "" || IncludesIgnoringCase(p.name, f.search) || IncludesIgnoringCase(p.description, f.search))
  }

  function ProductFilter(f: ProductFilters): Product -> bool
  {
    p => ProductMatches(f, p)
  }

  /** `reviewsAPI.getAll` filters, each a string; "" switches a filter off. */
  datatype ReviewFilters = ReviewFilters(productId: string, status: string, rating: string)

  predicate ReviewMatches(f: ReviewFilters, r: Review)
  {
    (f.productId == "" || FromInt(r.productId) == ParseInt(f.productId))
    && (f.status == "" || r.status == f.status)
    && (f.rating == "" || FromInt(r.rating) == ParseInt(f.rating))
  }

  function ReviewFilter(f: ReviewFilters): Review -> bool
  {
    r => ReviewMatches(f, r)
  }

  /** `messagesAPI.getAll` filters. */
  datatype MessageFilters = MessageFilters(status: string, search: string)

  predicate MessageMatches(f: MessageFilters, m: Message)
  {
    (f.status == "" || f.status == "all" || m.status == f.status)
    && (f.search == "" || IncludesIgnoringCase(m.name, f.search) || IncludesIgnoringCase(m.email, f.search)
        || IncludesIgnoringCase(m.subject, f.search))
  }

  function MessageFilter(f: MessageFilters): Message -> bool
  {
    m => MessageMatches(f, m)
  }

  // The single filters, in the order `getAll` applies them.
  function InCategory(f: ProductFilters): Product -> bool { (p: Product) => p.category == f.category }
  function AtLeastPrice(f: ProductFilters): Product -> bool { (p: Product) => p.priceCents >= f.minPriceCents }
  function AtMostPrice(f: ProductFilters): Product -> bool { (p: Product) => p.priceCents <= f.maxPriceCents }
  function RatedAtLeast(f: ProductFilters): Product -> bool { (p: Product) => p.ratingTenths >= f.minRatingTenths }
  function MentionsSearch(f: ProductFilters): Product -> bool
  {
    (p: Product) => IncludesIgnoringCase(p.name, f.search) || IncludesIgnoringCase(p.description, f.search)
  }

  /** The filters `productsAPI.getAll` switches on, chained in its order. */
  ghost function ProductChain(f: ProductFilters): Product -> bool
  {
    var a := Also(AcceptAll, ProductCategoryActive(f), InCategory(f));
    var b := Also(a, f.minPriceCents != 0, AtLeastPrice(f));
    var c := Also(b, f.maxPriceCents != 0, AtMostPrice(f));
    var d := Also(c, f.minRatingTenths != 0, RatedAtLeast(f));
    Also(d, f.search != "", MentionsSearch(f))
  }

  /** The chain of filters accepts exactly the products that match every switched-on filter. */
  lemma ProductChainMatches(s: seq<Product>, f: ProductFilters)
    ensures Filter(s, ProductChain(f)) == Filter(s, ProductFilter(f))
  {
    FilterCongruent(s, ProductChain(f), ProductFilter(f));
  }

  function OfProduct(f: ReviewFilters): Review -> bool { (r: Review) => FromInt(r.productId) == ParseInt(f.productId) }
  function InReviewStatus(f: ReviewFilters): Review -> bool { (r: Review) => r.status == f.status }
  function WithRating(f: ReviewFilters): Review -> bool { (r: Review) => FromInt(r.rating) == ParseInt(f.rating) }

  ghost function ReviewChain(f: ReviewFilters): Review -> bool
  {
    var a := Also(AcceptAll, f.productId != "", OfProduct(f));
    var b := Also(a, f.status != "", InReviewStatus(f));
    Also(b, f.rating != "", WithRating(f))
  }

  lemma ReviewChainMatches(s: seq<Review>, f: ReviewFilters)
    ensures Filter(s, ReviewChain(f)) == Filter(s, ReviewFilter(f))
  {
    FilterCongruent(s, ReviewChain(f), ReviewFilter(f));
  }

  /** Filters left unset select the whole store. */
  lemma UnsetProductFiltersSelectAll(store: seq<Product>)
    ensures Filter(store, ProductFilter(ProductFilters("", 0, 0, 0, ""))) == store
  {
    FilterAll(store, ProductFilter(ProductFilters("", 0, 0, 0, "")));
  }

  /** The category 'all' is the same as no category. */
  lemma CategoryAllIsUnset(store: seq<Product>, f: ProductFilters)
    ensures Filter(store, ProductFilter(f.(category := "all"))) == Filter(store, ProductFilter(f.(category := "")))
  {
    FilterCongruent(store, ProductFilter(f.(category := "all")), ProductFilter(f.(category := "")));
  }

  // ---------------------------------------------------------------------------
  // The store
  // ---------------------------------------------------------------------------

  class MockStore {
    var products: seq<Product>
    var categories: seq<Category>
    var reviews: seq<Review>
    var messages: seq<Message>

    /** The store starts from the fixture arrays, which are inputs here. */
    constructor(products0: seq<Product>, categories0: seq<Category>, reviews0: seq<Review>, messages0: seq<Message>)
      ensures products == products0 && categories == categories0
      ensures reviews == reviews0 && messages == messages0
    {
      products := products0;
      categories := categories0;
      reviews := reviews0;
      messages := messages0;
    }

    // --- products ------------------------------------------------------------

    /** `productsAPI.getAll(filters)`: each switched-on filter narrows the copy in turn. */
    method GetAllProducts(f: ProductFilters) returns (data: seq<Product>, total: int)
      ensures data == Filter(products, ProductFilter(f))
      ensures IsSubsequence(data, products)
      ensures total == |data|
    {
      var result := products;
      FilterAll(products, AcceptAll);
      if ProductCategoryActive(f) {
        result := Filter(result, InCategory(f));
      }
      FilterStep(products, AcceptAll, InCategory(f), ProductCategoryActive(f));
      ghost var kept := Also(AcceptAll, ProductCategoryActive(f), InCategory(f));
      if f.minPriceCents != 0 {
        result := Filter(result, AtLeastPrice(f));
      }
      FilterStep(products, kept, AtLeastPrice(f), f.minPriceCents != 0);
      kept := Also(kept, f.minPriceCents != 0, AtLeastPrice(f));
      if f.maxPriceCents != 0 {
        result := Filter(result, AtMostPrice(f));
      }
      FilterStep(products, kept, AtMostPrice(f), f.maxPriceCents != 0);
      kept := Also(kept, f.maxPriceCents != 0, AtMostPrice(f));
      if f.minRatingTenths != 0 {
        result := Filter(result, RatedAtLeast(f));
      }
      FilterStep(products, kept, RatedAtLeast(f), f.minRatingTenths != 0);
      kept := Also(kept, f.minRatingTenths != 0, RatedAtLeast(f));
      if f.search != "" {
        result := Filter(result, MentionsSearch(f));
      }
      FilterStep(products, kept, MentionsSearch(f), f.search != "");
      assert result == Filter(products, ProductChain(f));
      ProductChainMatches(products, f);
      FilterIsSubsequence(products, ProductFilter(f));
      data := result;
      total := |result|;
    }

    /** `productsAPI.getById(id)` */
    method GetProductById(id: string) returns (r: Reply<Product>)
      ensures var k := Lookup(products, ProductKey, id);
        (k >= 0 ==> r == Ok(products[k], "")) && (k < 0 ==> r == Err("Product not found"))
    {
      var k := Lookup(products, ProductKey, id);
      if k == -1 {
        return Err("Product not found");
      }
      return Ok(products[k], "");
    }

    /** `productsAPI.create(data)`: push a record whose id is the old length plus one unless `data` names one. */
    method CreateProduct(data: ProductPatch) returns (r: Reply<Product>)
      modifies this
      ensures products == old(products) + [NewProduct(old(products), data)]
      ensures r == Ok(NewProduct(old(products), data), "Product created successfully")
      ensures categories == old(categories) && reviews == old(reviews) && messages == old(messages)
    {
      var created := NewProduct(products, data);
      products := products + [created];
      return Ok(created, "Product created successfully");
    }

    /** `productsAPI.update(id, data)`: spread `data` over the first record with that id. */
    method UpdateProduct(id: string, data: ProductPatch) returns (r: Reply<Product>)
      modifies this
      ensures var k := Lookup(old(products), ProductKey, id);
        (k < 0 ==> r == Err("Product not found") && products == old(products)) &&
        (k >= 0 ==> products == old(products)[k := PatchProduct(old(products)[k], data)] &&
                    r == Ok(products[k], "Product updated successfully"))
      ensures |products| == |old(products)|
      ensures categories == old(categories) && reviews == old(reviews) && messages == old(messages)
    {
      var k := Lookup(products, ProductKey, id);
      if k == -1 {
        return Err("Product not found");
      }
      products := products[k := PatchProduct(products[k], data)];
      return Ok(products[k], "Product updated successfully");
    }

    /** `productsAPI.delete(id)`: splice out the first record with that id. */
    method DeleteProduct(id: string) returns (r: Reply<()>)
      modifies this
      ensures var k := Lookup(old(products), ProductKey, id);
        (k < 0 ==> r == Err("Product not found") && products == old(products)) &&
        (k >= 0 ==> products == RemoveAt(old(products), k) && r == Ok((), "Product deleted successfully"))
      ensures categories == old(categories) && reviews == old(reviews) && messages == old(messages)
    {
      var k := Lookup(products, ProductKey, id);
      if k == -1 {
        return Err("Product not found");
      }
      products := RemoveAt(products, k);
      return Ok((), "Product deleted successfully");
    }

    // --- categories ----------------------------------------------------------

    /** `categoriesAPI.getAll()` */
    method GetAllCategories() returns (data: seq<Category>)
      ensures data == categories
    {
      data := categories;
    }

    /** `categoriesAPI.getById(id)` */
    method GetCategoryById(id: string) returns (r: Reply<Category>)
      ensures var k := Lookup(categories, CategoryKey, id);
        (k >= 0 ==> r == Ok(categories[k], "")) && (k < 0 ==> r == Err("Category not found"))
    {
      var k := Lookup(categories, CategoryKey, id);
      if k == -1 {
        return Err("Category not found");
      }
      return Ok(categories[k], "");
    }

    /** `categoriesAPI.create(data)`: push a record with a fresh id and `productCount` 0. */
    method CreateCategory(data: CategoryPatch) returns (r: Reply<Category>)
      modifies this
      ensures categories == old(categories) + [NewCategory(old(categories), data)]
      ensures r == Ok(NewCategory(old(categories), data), "Category created successfully")
      ensures products == old(products) && reviews == old(reviews) && messages == old(messages)
    {
      var created := NewCategory(categories, data);
      categories := categories + [created];
      return Ok(created, "Category created successfully");
    }

    /** `categoriesAPI.update(id, data)` */
    method UpdateCategory(id: string, data: CategoryPatch) returns (r: Reply<Category>)
      modifies this
      ensures var k := Lookup(old(categories), CategoryKey, id);
        (k < 0 ==> r == Err("Category not found") && categories == old(categories)) &&
        (k >= 0 ==> categories == old(categories)[k := PatchCategory(old(categories)[k], data)] &&
                    r == Ok(categories[k], "Category updated successfully"))
      ensures products == old(products) && reviews == old(reviews) && messages == old(messages)
    {
      var k := Lookup(categories, CategoryKey, id);
      if k == -1 {
        return Err("Category not found");
      }
      categories := categories[k := PatchCategory(categories[k], data)];
      return Ok(categories[k], "Category updated successfully");
    }

    /** `categoriesAPI.delete(id)` */
    method DeleteCategory(id: string) returns (r: Reply<()>)
      modifies this
      ensures var k := Lookup(old(categories), CategoryKey, id);
        (k < 0 ==> r == Err("Category not found") && categories == old(categories)) &&
        (k >= 0 ==> categories == RemoveAt(old(categories), k) && r == Ok((), "Category deleted successfully"))
      ensures products == old(products) && reviews == old(reviews) && messages == old(messages)
    {
      var k := Lookup(categories, CategoryKey, id);
      if k == -1 {
        return Err("Category not found");
      }
      categories := RemoveAt(categories, k);
      return Ok((), "Category deleted successfully");
    }

    // --- reviews -------------------------------------------------------------

    /** `reviewsAPI.getAll(filters)` */
    method GetAllReviews(f: ReviewFilters) returns (data: seq<Review>, total: int)
      ensures data == Filter(reviews, ReviewFilter(f))
      ensures IsSubsequence(data, reviews)
      ensures total == |data|
    {
      var result := reviews;
      FilterAll(reviews, AcceptAll);
      if f.productId != "" {
        result := Filter(result, OfProduct(f));
      }
      FilterStep(reviews, AcceptAll, OfProduct(f), f.productId != "");
      ghost var kept := Also(AcceptAll, f.productId != "", OfProduct(f));
      if f.status != "" {
        result := Filter(result, InReviewStatus(f));
      }
      FilterStep(reviews, kept, InReviewStatus(f), f.status != "");
      kept := Also(kept, f.status != "", InReviewStatus(f));
      if f.rating != "" {
        result := Filter(result, WithRating(f));
      }
      FilterStep(reviews, kept, WithRating(f), f.rating != "");
      assert result == Filter(reviews, ReviewChain(f));
      ReviewChainMatches(reviews, f);
      FilterIsSubsequence(reviews, ReviewFilter(f));
      data := result;
      total := |result|;
    }

    /** `reviewsAPI.getById(id)` */
    method GetReviewById(id: string) returns (r: Reply<Review>)
      ensures var k := Lookup(reviews, ReviewKey, id);
        (k >= 0 ==> r == Ok(reviews[k], "")) && (k < 0 ==> r == Err("Review not found"))
    {
      var k := Lookup(reviews, ReviewKey, id);
      if k == -1 {
        return Err("Review not found");
      }
      return Ok(reviews[k], "");
    }

    /** Sets the status of the first review with that id; shared by approve and reject. */
    method SetReviewStatus(id: string, status: string, done: string) returns (r: Reply<Review>)
      modifies this
      ensures var k := Lookup(old(reviews), ReviewKey, id);
        (k < 0 ==> r == Err("Review not found") && reviews == old(reviews)) &&
        (k >= 0 ==> reviews == old(reviews)[k := old(reviews)[k].(status := status)] &&
                    r == Ok(reviews[k], done))
      ensures products == old(products) && categories == old(categories) && messages == old(messages)
    {
      var k := Lookup(reviews, ReviewKey, id);
      if k == -1 {
        return Err("Review not found");
      }
      reviews := reviews[k := reviews[k].(status := status)];
      return Ok(reviews[k], done);
    }

    /** `reviewsAPI.approve(id)` */
    method ApproveReview(id: string) returns (r: Reply<Review>)
      modifies this
      ensures var k := Lookup(old(reviews), ReviewKey, id);
        (k < 0 ==> r == Err("Review not found") && reviews == old(reviews)) &&
        (k >= 0 ==> reviews == old(reviews)[k := old(reviews)[k].(status := "approved")] &&
                    r == Ok(reviews[k], "Review approved successfully"))
      ensures products == old(products) && categories == old(categories) && messages == old(messages)
    {
      r := SetReviewStatus(id, "approved", "Review approved successfully");
    }

    /** `reviewsAPI.reject(id)` */
    method RejectReview(id: string) returns (r: Reply<Review>)
      modifies this
      ensures var k := Lookup(old(reviews), ReviewKey, id);
        (k < 0 ==> r == Err("Review not found") && reviews == old(reviews)) &&
        (k >= 0 ==> reviews == old(reviews)[k := old(reviews)[k].(status := "rejected")] &&
                    r == Ok(reviews[k], "Review rejected successfully"))
      ensures products == old(products) && categories == old(categories) && messages == old(messages)
    {
      r := SetReviewStatus(id, "rejected", "Review rejected successfully");
    }

    /** `reviewsAPI.delete(id)` */
    method DeleteReview(id: string) returns (r: Reply<()>)
      modifies this
      ensures var k := Lookup(old(reviews), ReviewKey, id);
        (k < 0 ==> r == Err("Review not found") && reviews == old(reviews)) &&
        (k >= 0 ==> reviews == RemoveAt(old(reviews), k) && r == Ok((), "Review deleted successfully"))
      ensures products == old(products) && categories == old(categories) && messages == old(messages)
    {
      var k := Lookup(reviews, ReviewKey, id);
      if k == -1 {
        return Err("Review not found");
      }
      reviews := RemoveAt(reviews, k);
      return Ok((), "Review deleted successfully");
    }

    // --- messages ------------------------------------------------------------

    /** `messagesAPI.getAll(filters)` */
    method GetAllMessages(f: MessageFilters) returns (data: seq<Message>, total: int)
      ensures data == Filter(messages, MessageFilter(f))
      ensures IsSubsequence(data, messages)
      ensures total == |data|
    {
      var result := messages;
      ghost var kept: Message -> bool := AcceptAll;
      FilterAll(messages, kept);

      var inStatus := (m: Message) => m.status == f.status;
      var byStatus := f.status != "" && f.status != "all";
      if byStatus {
        result := Filter(result, inStatus);
      }
      FilterStep(messages, kept, inStatus, byStatus);
      kept := Also(kept, byStatus, inStatus);

      var found := (m: Message) => IncludesIgnoringCase(m.name, f.search) || IncludesIgnoringCase(m.email, f.search)
        || IncludesIgnoringCase(m.subject, f.search);
      if f.search != "" {
        result := Filter(result, found);
      }
      FilterStep(messages, kept, found, f.search != "");
      kept := Also(kept, f.search != "", found);

      FilterCongruent(messages, kept, MessageFilter(f));
      FilterIsSubsequence(messages, MessageFilter(f));
      data := result;
      total := |result|;
    }

    /** `messagesAPI.getById(id)` */
    method GetMessageById(id: string) returns (r: Reply<Message>)
      ensures var k := Lookup(messages, MessageKey, id);
        (k >= 0 ==> r == Ok(messages[k], "")) && (k < 0 ==> r == Err("Message not found"))
    {
      var k := Lookup(messages, MessageKey, id);
      if k == -1 {
        return Err("Message not found");
      }
      return Ok(messages[k], "");
    }

    /** Sets the status of the first message with that id; shared by markAsRead and archive. */
    method SetMessageStatus(id: string, status: string) returns (r: Reply<Message>)
      modifies this
      ensures var k := Lookup(old(messages), MessageKey, id);
        (k < 0 ==> r == Err("Message not found") && messages == old(messages)) &&
        (k >= 0 ==> messages == old(messages)[k := old(messages)[k].(status := status)] &&
                    r == Ok(messages[k], ""))
      ensures products == old(products) && categories == old(categories) && reviews == old(reviews)
    {
      var k := Lookup(messages, MessageKey, id);
      if k == -1 {
        return Err("Message not found");
      }
      messages := messages[k := messages[k].(status := status)];
      return Ok(messages[k], "");
    }

    /** `messagesAPI.markAsRead(id)` */
    method MarkMessageAsRead(id: string) returns (r: Reply<Message>)
      modifies this
      ensures var k := Lookup(old(messages), MessageKey, id);
        (k < 0 ==> r == Err("Message not found") && messages == old(messages)) &&
        (k >= 0 ==> messages == old(messages)[k := old(messages)[k].(status := "read")] && r == Ok(messages[k], ""))
      ensures products == old(products) && categories == old(categories) && reviews == old(reviews)
    {
      r := SetMessageStatus(id, "read");
    }

    /** `messagesAPI.archive(id)` */
    method ArchiveMessage(id: string) returns (r: Reply<Message>)
      modifies this
      ensures var k := Lookup(old(messages), MessageKey, id);
        (k < 0 ==> r == Err("Message not found") && messages == old(messages)) &&
        (k >= 0 ==> messages == old(messages)[k := old(messages)[k].(status := "archived")] && r == Ok(messages[k], ""))
      ensures products == old(products) && categories == old(categories) && reviews == old(reviews)
    {
      r := SetMessageStatus(id, "archived");
    }

    /** `messagesAPI.delete(id)` */
    method DeleteMessage(id: string) returns (r: Reply<()>)
      modifies this
      ensures var k := Lookup(old(messages), MessageKey, id);
        (k < 0 ==> r == Err("Message not found") && messages == old(messages)) &&
        (k >= 0 ==> messages == RemoveAt(old(messages), k) && r == Ok((), "Message deleted successfully"))
      ensures products == old(products) && categories == old(categories) && reviews == old(reviews)
    {
      var k := Lookup(messages, MessageKey, id);
      if k == -1 {
        return Err("Message not found");
      }
      messages := RemoveAt(messages, k);
      return Ok((), "Message deleted successfully");
    }

    /** `messagesAPI.send(data)`: push an unread, normal-priority, unstarred message. */
    method SendMessage(data: MessagePatch) returns (r: Reply<Message>)
      modifies this
      ensures messages == old(messages) + [NewMessage(old(messages), data)]
      ensures r == Ok(NewMessage(old(messages), data), "Message sent successfully")
      ensures products == old(products) && categories == old(categories) && reviews == old(reviews)
    {
      var sent := NewMessage(messages, data);
      messages := messages + [sent];
      return Ok(sent, "Message sent successfully");
    }
  }
}
