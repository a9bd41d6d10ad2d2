# Robotics storefront: the list and record logic, modelled in Dafny

This project models the logic of a React storefront for home and service robots. It covers the parts that compute rather than render:

- **Cart store.** `ShoppingContext.jsx` keeps one line per product id and merges quantities on add. The cart page derives the order summary from it, and the product page's quantity stepper feeds it.
- **In-memory API.** `services/mockapi.js` holds four module-level arrays (products, categories, reviews, messages). They are changed by push, splice, element replacement and field assignment.
- **Catalogue.** The catalogue page filters and sorts the products. Its filter panel edits the filter object.
- **Validation and helpers.** The form validators and the regular expressions behind them, and the general helpers (relative time, truncation, emptiness, discount, slug, capitalisation, sort and group by key).
- **Admin screens.** The product form and page, the product table, and the category, review and message managers. Each keeps a list with status changes by id, toggles, adds with `id = length + 1`, deletes by id, a filter, fixed-size pages and count statistics.
- **Small state machines.** The contact form, the session hook, the colour theme, and the index arithmetic of the testimonial slider, the fade carousel and the image gallery. Also the chunking of the industries list into slides of three.

Form:

- Components whose state changes step by step are classes. Their fields are the component's state; their methods are the handlers, with `modifies` frames.
- Pure derivations are functions. Each has a lemma or contract that says what it means.
- Loops in the source (the insertion sort behind `Array.prototype.sort`, `groupBy`, `getRelativeTime`, the chunking loop, `getVisibleTestimonials`) are methods with loop invariants.

Representation:

- Money is in whole cents. Ratings that are decimals in the source (4.8) are in tenths of a star.
- JavaScript values that the code inspects by type (`isEmpty`, `validateRequired`, the product form's fields) are a `Value` datatype. It has `undefined`, `null`, booleans, decimal numbers or NaN, strings, arrays and objects.
- The product form's errors object is a map keyed by the input whose `name` is the key. An entry the code sets to `null` is `None`.
- Strings are sequences of Unicode characters. `.length` and `substring` count UTF-16 code units, so a character outside the Basic Multilingual Plane counts 2 (`Utf16Length`).
- A confirmation dialog's answer is a boolean parameter. The clock reading is a parameter.
- An asynchronous handler is its synchronous effect on the state.

## Model

| member | source | states |
|---|---|---|
| Cart.ProductId | client/src/contexts/ShoppingContext.jsx:19 | A line's identity is `_id` when it is set, else `id`, else undefined. |
| Cart.CartTotal | client/src/contexts/ShoppingContext.jsx:66-68 | The reduce over the lines equals the sum of price × quantity. |
| Cart.CartCount | client/src/contexts/ShoppingContext.jsx:70-72 | The reduce over the lines equals the sum of the quantities. |
| Cart.MapMatching | client/src/contexts/ShoppingContext.jsx:27-33 | The lines with the given id get the new quantity. Every line keeps its product, and lines with another id are unchanged. |
| Cart.Added | client/src/contexts/ShoppingContext.jsx:22-39 | After adding, the product is in the cart. A present product has its line's quantity raised, with the length kept. An absent one gets exactly `{...product, quantity}` appended at the end. |
| Cart.Removed | client/src/contexts/ShoppingContext.jsx:42-44 | No line with the id remains. Every other line is kept, in order. An absent id changes nothing. |
| Cart.MapMatchingAbsent | client/src/contexts/ShoppingContext.jsx:27-33 | Updating an id that no line has changes nothing. |
| Cart.MapMatchingKeepsDistinct | client/src/contexts/ShoppingContext.jsx:27-33 | Changing quantities keeps distinct line ids distinct. |
| Cart.MapMatchingUnits | client/src/contexts/ShoppingContext.jsx:27-33 | With distinct ids, the unit count changes by exactly the change in the matched line's quantity. |
| Cart.AddedKeepsDistinct | client/src/contexts/ShoppingContext.jsx:24-37 | Starting from distinct ids, adding keeps at most one line per product id. |
| Cart.AddedCount | client/src/contexts/ShoppingContext.jsx:22-39 | With distinct ids, adding `quantity` raises the unit count by `quantity`. |
| Cart.AddedNewTotal | client/src/contexts/ShoppingContext.jsx:34-36 | Adding a new product raises the total by its price times the quantity. |
| Cart.RemovedKeepsDistinct | client/src/contexts/ShoppingContext.jsx:42-44 | Removing keeps distinct ids distinct. |
| Cart.InCartIffUnitsHeld | client/src/contexts/ShoppingContext.jsx:75-77 | `isInCart(k)` (some line has id `k`) holds exactly when the cart holds units under `k`, given quantities of at least 1. |
| Cart.RemovedCount | client/src/contexts/ShoppingContext.jsx:42-44 | Removing an id lowers the unit count by exactly the units held under it. |
| Cart.WithQuantityCount | client/src/contexts/ShoppingContext.jsx:47-58 | Setting a positive quantity keeps ids distinct. The unit count becomes the old count minus the old quantity plus the new one. |
| Cart.CartStore.constructor | client/src/contexts/ShoppingContext.jsx:12-16 | The cart starts empty and closed. |
| Cart.CartStore.AddToCart | client/src/contexts/ShoppingContext.jsx:22-39 | The lines become `Added(old, product, quantity)` and the drawer flag is kept. The product is then in the cart, distinct ids stay distinct, and the count rises by `quantity`. |
| Cart.CartStore.AddOneToCart | client/src/contexts/ShoppingContext.jsx:22 | With no quantity given, the default of 1 is added. |
| Cart.CartStore.RemoveFromCart | client/src/contexts/ShoppingContext.jsx:42-44 | The id is no longer in the cart. The count falls by that id's units, and distinct ids stay distinct. |
| Cart.CartStore.UpdateQuantity | client/src/contexts/ShoppingContext.jsx:47-58 | A quantity of 0 or less is exactly `removeFromCart`. Otherwise only that line's quantity is set and the length is kept. Distinct ids stay distinct. |
| Cart.CartStore.ClearCart | client/src/contexts/ShoppingContext.jsx:61-63 | The cart is empty, so the total and the count are 0. |
| Cart.CartStore.ToggleCart | client/src/contexts/ShoppingContext.jsx:80-82 | The drawer flag flips and the lines are untouched. |
| Checkout.Shipping | client/src/pages/Cart.jsx:12 | Shipping is free exactly when the subtotal is strictly above $100; otherwise it is $15. |
| Checkout.LineAmounts | client/src/pages/Cart.jsx:74 | Each line shows its price times its quantity. |
| Checkout.Summarize | client/src/pages/Cart.jsx:11-16 | The summary's subtotal is `getCartTotal()`, with the shipping above. Tax is exactly 8% of the subtotal and the total is the sum of the three. The empty state shows exactly when there are no lines, and the header counts lines. |
| Checkout.LineAmountsSumToSubtotal | client/src/pages/Cart.jsx:74 | The line amounts add up to the subtotal. |
| Checkout.LinesAtMostUnits | client/src/pages/Cart.jsx:43 | The header counts lines, not units. With every quantity at least 1, there are never more lines than units. |
| Checkout.ShippingThreshold | client/src/pages/Cart.jsx:12 | A subtotal of exactly $100.00 still pays shipping; $100.01 does not. |
| Checkout.ClickMinus | client/src/pages/Cart.jsx:86-90 | An enabled minus lowers that line's quantity by one. A disabled one (quantity ≤ 1) does nothing, so the stepper never removes a line. |
| Checkout.ClickPlus | client/src/pages/Cart.jsx:96 | Plus is `updateQuantity(id, q + 1)`. From a non-negative quantity it keeps the line. |
| Checkout.ClickRemove | client/src/pages/Cart.jsx:105 | The trash button removes that line's id. |
| Checkout.ClickClear | client/src/pages/Cart.jsx:127-131 | Clear Cart empties the cart only when confirmed. |
| ProductInfo.Step | client/src/components/product-detail/Productinfo.jsx:26-32 | Increment adds one. Decrement subtracts one only above 1. Any other action leaves the quantity alone, so a quantity of at least 1 stays at least 1. |
| ProductInfo.DecrementUndoesIncrement | client/src/components/product-detail/Productinfo.jsx:26-32 | Decrement undoes increment. |
| ProductInfo.IncrementUndoesDecrement | client/src/components/product-detail/Productinfo.jsx:26-32 | Increment undoes decrement above the floor of 1. |
| ProductInfo.QuantitySelector.constructor | client/src/components/product-detail/Productinfo.jsx:21 | The quantity starts at 1. |
| ProductInfo.QuantitySelector.HandleQuantityChange | client/src/components/product-detail/Productinfo.jsx:26-32 | The quantity steps as `Step` says and never falls below 1. |
| ProductInfo.QuantitySelector.HandleAddToCart | client/src/components/product-detail/Productinfo.jsx:34-37 | The current quantity is added to the cart. |
| ProductInfo.QuantitySelector.HandleBuyNow | client/src/components/product-detail/Productinfo.jsx:39-42 | Buy Now adds the current quantity exactly as Add to Cart does. |
| Sorting.SortInPlace | client/src/pages/Products.jsx:197-213 | The array sort with a one-field comparator leaves the array ordered by that field (ascending, or descending) and a permutation of what it was. It is stable: elements of equal rank keep their input order. |
| Sorting.InsertLast | client/src/pages/Products.jsx:197-213 | One insertion step extends the sorted prefix by one element and keeps the array's contents. |
| Sorting.Swap | client/src/pages/Products.jsx:197-213 | Exchanging two elements keeps the array's contents. |
| Catalogue.ApplyFilter | client/src/pages/Products.jsx:151-194 | One filter stage, run on the products the earlier stages kept, keeps exactly those that also pass this stage when it is switched on. If it is off, nothing changes. |
| Catalogue.FilterProducts | client/src/pages/Products.jsx:149-194 | Running the switched-on filters in turn keeps exactly the products that pass every active filter, in catalogue order. |
| Catalogue.VisibleProducts | client/src/pages/Products.jsx:147-216 | The listed products are a reordering of exactly the visible ones. They are sorted by price (up or down), rating or reviews as chosen, and products that tie keep catalogue order; any other order keeps catalogue order. |
| Catalogue.SortOrders | client/src/pages/Products.jsx:197-213 | 'price-low' is ascending price. 'price-high' is descending price, 'rating' descending rating and 'popular' descending reviews. 'featured' is unsorted. |
| Catalogue.NoFiltersListEverything | client/src/pages/Products.jsx:152-194 | An empty search and no filters list every product. |
| Catalogue.UnknownFeatureExcludesAll | client/src/pages/Products.jsx:180-194 | Selecting a feature id outside the feature map lists nothing. |
| Catalogue.CategoryOptionsMatchNoProduct | client/src/pages/Products.jsx:161-162 | Any category option but 'all' lists no shipped product. The panel's ids ('cleaners', …) are not the products' category names. |
| Catalogue.WithoutProduct | client/src/pages/Products.jsx:226-228 | Removing from the comparison drops exactly the products with that id and keeps the rest in order. |
| Catalogue.ProductsPage.constructor | client/src/pages/Products.jsx:12-21 | The page starts with nothing listed, no filters, an empty search and the 'featured' order. |
| Catalogue.ProductsPage.Refresh | client/src/pages/Products.jsx:147-216 | The effect sets the listed products to the sorted visible ones, ties in catalogue order, and changes nothing else. |
| Catalogue.ProductsPage.HandleFilterChange | client/src/pages/Products.jsx:218-220 | Only the filters are replaced. |
| Catalogue.ProductsPage.HandleSearch | client/src/pages/Products.jsx:222-224 | Only the search term is replaced. |
| Catalogue.ProductsPage.HandleRemoveFromComparison | client/src/pages/Products.jsx:226-228 | Only the comparison list changes, losing that id. |
| ProductFilterPanel.ChangeCategory | client/src/components/products/ProducrFilter.jsx:50-52 | The category is set and the other keys are kept. |
| ProductFilterPanel.ChangePrice | client/src/components/products/ProducrFilter.jsx:54-56 | The price band is set and the other keys are kept. |
| ProductFilterPanel.ChangeRating | client/src/components/products/ProducrFilter.jsx:58-60 | The minimum rating is set and the other keys are kept. |
| ProductFilterPanel.ToggleFeature | client/src/components/products/ProducrFilter.jsx:62-68 | The id is present afterwards exactly when it was absent before. Other ids are untouched, and an absent id is appended at the end. |
| ProductFilterPanel.HandleFeatureToggle | client/src/components/products/ProducrFilter.jsx:62-68 | Only the feature list changes, toggled. |
| ProductFilterPanel.ToggleTwiceRestoresAbsent | client/src/components/products/ProducrFilter.jsx:62-68 | Toggling an absent feature twice restores the list exactly. |
| ProductFilterPanel.ToggleTwiceKeepsSet | client/src/components/products/ProducrFilter.jsx:62-68 | Toggling a present feature twice keeps the same set of features and moves it to the end. |
| ProductFilterPanel.ActiveCount | client/src/components/products/ProducrFilter.jsx:74-83 | The count lies between the number of features and 3 more than that. It equals the number of features exactly when no category other than 'all', no price range and no minimum rating is set. |
| ProductFilterPanel.ClearedCountsNothing | client/src/components/products/ProducrFilter.jsx:70-83 | The `{}` that clearing emits counts no filter. |
| ProductFilterPanel.ToggleChangesCount | client/src/components/products/ProducrFilter.jsx:62-83 | Toggling an absent feature adds one to the count. Toggling a present one subtracts its number of copies. |
| ProductFilterPanel.OneCategoryChecked | client/src/components/products/ProducrFilter.jsx:133-137 | At most one category option is checked, and 'all' is checked when no category is set. |
| MockApi.NewProduct | client/src/services/mockapi.js:77-82 | A created product has id = old length + 1, unless the data names one. Every supplied field is carried; an absent text is '' and an absent number 0. |
| MockApi.NewCategory | client/src/services/mockapi.js:167-171 | A created category has id = old length + 1, unless given, and a product count of 0. Its name, description and icon are the supplied ones, '' when absent. |
| MockApi.NewMessage | client/src/services/mockapi.js:431-440 | A sent message has id = old length + 1, status 'unread', priority 'normal', and is not starred. Its name, email, subject and message are the supplied ones, '' when absent. |
| MockApi.EmptyPatchIsIdentity | client/src/services/mockapi.js:104-108 | Spreading an update that supplies nothing changes nothing. |
| MockApi.PatchIdempotent | client/src/services/mockapi.js:104-108 | Spreading the same update twice equals spreading it once. |
| MockApi.PatchesCompose | client/src/services/mockapi.js:104-108 | Two updates in a row are one update where the later one wins on every field both supply. |
| MockApi.Lookup | client/src/services/mockapi.js:59 | The lookup finds the first record whose id equals `parseInt(id)`, or -1 exactly when there is none. |
| MockApi.LookupAfterPush | client/src/services/mockapi.js:75-91 | A record pushed with a fresh id is found by that id, at the end. |
| MockApi.LookupAfterDelete | client/src/services/mockapi.js:118-137 | With unique ids, after deleting the found record, its id finds nothing. |
| MockApi.NextIdCollidesAfterDelete | client/src/services/mockapi.js:77-79 | With ids 1..n, deleting any record but the last makes the next create reuse the id of the record that is now last. |
| MockApi.ProductChainMatches | client/src/services/mockapi.js:24-47 | The chain of optional filters keeps exactly the products passing every active filter. |
| MockApi.ReviewChainMatches | client/src/services/mockapi.js:230-244 | The same holds for the review filters. |
| MockApi.UnsetProductFiltersSelectAll | client/src/services/mockapi.js:24-47 | Falsy filter values select the whole store. |
| MockApi.CategoryAllIsUnset | client/src/services/mockapi.js:24-26 | The category 'all' selects the same as no category. |
| MockApi.MockStore.constructor | client/src/services/mockapi.js:5-11 | The store starts from the fixture arrays. |
| MockApi.MockStore.GetAllProducts | client/src/services/mockapi.js:19-55 | The data is the filtered store in store order, `total` is its length, and the store is not changed. |
| MockApi.MockStore.GetProductById | client/src/services/mockapi.js:57-73 | Answers the first record with that id, or 'Product not found'. |
| MockApi.MockStore.CreateProduct | client/src/services/mockapi.js:75-91 | Appends exactly the new product and answers it with the success message. Other arrays are unchanged. |
| MockApi.MockStore.UpdateProduct | client/src/services/mockapi.js:93-116 | An unknown id answers 'Product not found' and changes nothing. Otherwise only the found record gets the supplied fields, and the length is kept. |
| MockApi.MockStore.DeleteProduct | client/src/services/mockapi.js:118-137 | An unknown id answers not found and changes nothing. Otherwise exactly the found record is removed and the store shrinks by one. |
| MockApi.MockStore.GetAllCategories | client/src/services/mockapi.js:140-146 | Answers the whole category array. |
| MockApi.MockStore.GetCategoryById | client/src/services/mockapi.js:148-163 | Answers the first category with that id, or 'Category not found'. |
| MockApi.MockStore.CreateCategory | client/src/services/mockapi.js:165-180 | Appends exactly the new category with a count of 0. |
| MockApi.MockStore.UpdateCategory | client/src/services/mockapi.js:182-203 | The not-found case changes nothing. Otherwise only the found category is updated. |
| MockApi.MockStore.DeleteCategory | client/src/services/mockapi.js:205-224 | The not-found case changes nothing. Otherwise exactly the found category is removed. |
| MockApi.MockStore.GetAllReviews | client/src/services/mockapi.js:227-248 | The filtered reviews in order, with `total` their number. |
| MockApi.MockStore.GetReviewById | client/src/services/mockapi.js:250-265 | Answers the first review with that id, or 'Review not found'. |
| MockApi.MockStore.SetReviewStatus | client/src/services/mockapi.js:267-305 | Sets only the found review's status. Not found changes nothing. |
| MockApi.MockStore.ApproveReview | client/src/services/mockapi.js:267-285 | The found review becomes 'approved' and nothing else changes. |
| MockApi.MockStore.RejectReview | client/src/services/mockapi.js:287-305 | The found review becomes 'rejected' and nothing else changes. |
| MockApi.MockStore.DeleteReview | client/src/services/mockapi.js:307-326 | Removes exactly the found review. Not found changes nothing. |
| MockApi.MockStore.GetAllMessages | client/src/services/mockapi.js:329-352 | The filtered messages in order, with `total` their number. |
| MockApi.MockStore.GetMessageById | client/src/services/mockapi.js:354-369 | Answers the first message with that id, or 'Message not found'. |
| MockApi.MockStore.SetMessageStatus | client/src/services/mockapi.js:371-407 | Sets only the found message's status. Not found changes nothing. |
| MockApi.MockStore.MarkMessageAsRead | client/src/services/mockapi.js:371-388 | The found message becomes 'read' and nothing else changes. |
| MockApi.MockStore.ArchiveMessage | client/src/services/mockapi.js:390-407 | The found message becomes 'archived' and nothing else changes. |
| MockApi.MockStore.DeleteMessage | client/src/services/mockapi.js:409-427 | Removes exactly the found message. Not found changes nothing. |
| MockApi.MockStore.SendMessage | client/src/services/mockapi.js:429-447 | Appends exactly the new unread, normal-priority, unstarred message. |
| Js.Utf16Length | client/src/utils/validators.jsx:31 | `.length` counts UTF-16 code units: between the number of characters and twice that. |
| Js.Utf16Prefix | client/src/utils/helpers.jsx:75 | `substring(0, n)` keeps a prefix of at most `n` code units; the whole string when it fits, and otherwise one that falls short of `n` by at most one unit. |
| Js.Utf16PrefixIsLongest | client/src/utils/helpers.jsx:75 | When `substring(0, n)` stops before the end, taking one more character would exceed `n` code units: the prefix is the longest of whole characters that fits. |
| Js.Utf16LengthAppend | client/src/utils/helpers.jsx:75 | The code-unit length of a concatenation is the sum of the lengths. |
| Js.ParseIntOfDecimalString | client/src/services/mockapi.js:59 | `parseInt` of a whole number's decimal text gives the number back, so a record is found by its own id. |
| Validators.EmailPatternIsShape | client/src/utils/constants.jsx:179 | The email pattern holds exactly when there is no whitespace, exactly one '@', text before it, and a '.' after it with text on both sides. |
| Validators.ValidateEmail | client/src/utils/validators.jsx:9-19 | A blank value is 'Email is required'. Otherwise the value is valid exactly when it has the email shape, and 'Invalid email format' when not. |
| Validators.ValidatePassword | client/src/utils/validators.jsx:26-43 | A blank value is required. Under 8 UTF-16 code units gives the length error. The value is valid exactly when it has 8 or more code units with a lower-case letter, an upper-case letter and a digit; a long enough value without them gets 'Password must contain uppercase, lowercase, and number'. |
| Validators.ValidateRequired | client/src/utils/validators.jsx:51-57 | The value is valid exactly when it is truthy and not an all-whitespace string. The error is "<field> is required". |
| Validators.ValidatePhone | client/src/utils/validators.jsx:64-74 | A blank value is required. Otherwise the value is valid exactly when it matches the phone pattern, and gets 'Invalid phone number format' when not. |
| Validators.ValidateUrl | client/src/utils/validators.jsx:81-91 | A blank value is required. The value is valid exactly when it is http(s):// followed by at least one character; a non-blank value that is not gets 'Invalid URL format'. |
| Validators.ValidateMinLength | client/src/utils/validators.jsx:100-113 | An empty value is required. The value is valid exactly when its untrimmed length in UTF-16 code units reaches the minimum. |
| Validators.ValidateMaxLength | client/src/utils/validators.jsx:122-131 | An empty value always passes. Otherwise the value is valid exactly when its length in UTF-16 code units is at most the maximum. |
| Validators.ValidateRange | client/src/utils/validators.jsx:141-156 | The value is valid exactly when it parses as a number within both inclusive bounds. NaN gives "must be a number", and a number out of range gives "<field> must be between <min> and <max>". |
| Validators.PasswordLengthInCodeUnits | client/src/utils/validators.jsx:31 | 'Aa1' followed by three characters outside the Basic Multilingual Plane has length 9 and passes; 'Aa1bcd' has length 6 and fails. |
| Validators.MinLengthBoundary | client/src/utils/validators.jsx:100-113 | Ten characters of the Basic Multilingual Plane pass a minimum of ten and nine do not. |
| Validators.CollectProductErrors | client/src/utils/validators.jsx:163-198 | Given each field's outcome, the errors object has a key exactly for the failing fields, with their messages. The form is valid exactly when the object is empty. |
| Validators.ValidateProductForm | client/src/utils/validators.jsx:163-198 | One message per failing field (name, category, price, description ≥ 10 UTF-16 code units, stock). The form is valid exactly when there are none. |
| Validators.ValidateContactForm | client/src/utils/validators.jsx:205-236 | One message per failing field (name, email, subject, message ≥ 10 UTF-16 code units untrimmed). The form is valid exactly when there are none. |
| Helpers.GetRelativeTime | client/src/utils/helpers.jsx:42-65 | The loop over the units returns the reference text: the largest unit whose floor count is at least 1. |
| Helpers.LargestUnitIsFirstFit | client/src/utils/helpers.jsx:42-65 | A unit that fits, with every larger unit too big, is the unit chosen. |
| Helpers.RelativeTimeBuckets | client/src/utils/helpers.jsx:42-65 | Under one second gives 'just now'. Otherwise the count of the chosen unit is at least 1, and every larger unit fits zero times. |
| Helpers.PluralOnlyAboveOne | client/src/utils/helpers.jsx:58-60 | Only a count above 1 takes the plural 's'. |
| Helpers.TruncateText | client/src/utils/helpers.jsx:73-76 | A falsy text, or one of at most `maxLength` UTF-16 code units, is returned as is. A longer one becomes the trimmed prefix of the text of at most `maxLength` code units plus '...', where the untrimmed prefix is proper and one more character would exceed `maxLength`. |
| Helpers.KeptIsTrimmedPrefix | client/src/utils/helpers.jsx:75 | `text.substring(0, maxLength).trim()` of a text that does not fit is a trimmed proper prefix of it, of at most `maxLength` code units, such that the prefix with one more character would exceed `maxLength`. |
| Js.Utf16PrefixIsProper | client/src/utils/helpers.jsx:75 | A non-empty text longer than `n` code units is cut short of its end. |
| Helpers.TruncateDefaultBound | client/src/utils/helpers.jsx:73-76 | With the default limit, the result is at most 103 UTF-16 code units. |
| Helpers.IsEmptyMeaning | client/src/utils/helpers.jsx:139-145 | null and undefined are empty. A string is empty exactly when it is all whitespace, an array or object exactly when it has no element or key. No number or boolean is empty. |
| Helpers.EmptyVersusFalsy | client/src/utils/helpers.jsx:139-145 | `isEmpty` and falsiness differ on ' ', 0, false and []. |
| Helpers.RoundQuotient | client/src/utils/helpers.jsx:155 | `Math.round` of a quotient is the nearest whole number, with halves rounded up. |
| Helpers.CalculateDiscount | client/src/utils/helpers.jsx:153-156 | The result is 0 when either price is missing or zero, and otherwise the rounded percentage off. |
| Helpers.DiscountInRange | client/src/utils/helpers.jsx:153-156 | A discounted price between 0 (excluded) and the original gives a percentage from 0 to 100. |
| Helpers.FreeShowsNoDiscount | client/src/utils/helpers.jsx:153-156 | A price of 0 shows no discount, not 100%. |
| Helpers.DiscountExample | client/src/utils/helpers.jsx:153-156 | 599.99 down to 549.99 is 8%, and 2.00 down to 1.99 is 1%. |
| Helpers.SlugifyIsSlug | client/src/utils/helpers.jsx:163-171 | A slug has only lower-case letters, digits, '_' and '-', and never '--'. |
| Helpers.SlugifyIdempotent | client/src/utils/helpers.jsx:163-171 | Slugifying twice equals slugifying once. |
| Helpers.SplitSpaces | client/src/utils/helpers.jsx:181 | `split(' ')` gives at least one piece, and no piece holds a space. |
| Helpers.JoinSplit | client/src/utils/helpers.jsx:181-183 | Joining the pieces of a split with ' ' gives the text back. |
| Helpers.SplitJoin | client/src/utils/helpers.jsx:181-183 | Splitting joined space-free words gives the words back. |
| Helpers.CapitalizeWord | client/src/utils/helpers.jsx:182 | The first letter is upper-cased, the rest lower-cased, and the length is kept. |
| Helpers.CapitalizeWordIdempotent | client/src/utils/helpers.jsx:182 | Capitalising a capitalised word changes nothing. |
| Helpers.CapitalizeWords | client/src/utils/helpers.jsx:181-183 | Each word is capitalised. |
| Helpers.CapitalizeWordKeepsSpaces | client/src/utils/helpers.jsx:182 | Case mapping creates and removes no space. |
| Helpers.CapitalizeKeepsWords | client/src/utils/helpers.jsx:178-184 | The result has the same number of words, each capitalised. |
| Helpers.CapitalizeIdempotent | client/src/utils/helpers.jsx:178-184 | Capitalising twice equals capitalising once. |
| Helpers.SortByKey | client/src/utils/helpers.jsx:193-204 | The result is a permutation of the input, sorted ascending for 'asc' and descending otherwise. The input is a value, so it is left alone. |
| Helpers.GroupBy | client/src/utils/helpers.jsx:212-221 | The loop builds the reference grouping. |
| Helpers.GroupsPartition | client/src/utils/helpers.jsx:212-221 | Each group holds exactly the items with its key, in their original order. Every item is in the group of its key. |
| Helpers.GroupSizesSum | client/src/utils/helpers.jsx:212-221 | The group sizes add up to the number of items. |
| ContactPage.ContactForm.constructor | client/src/pages/Contact.jsx:9-17 | The form starts empty, with no errors. |
| ContactPage.ContactForm.HandleChange | client/src/pages/Contact.jsx:52-59 | Only the edited field changes, and only its error is cleared. |
| ContactPage.ContactForm.ValidateForm | client/src/pages/Contact.jsx:61-86 | Name and subject must not be blank. The email must be present and match the pattern. The message needs 10 UTF-16 code units after trimming. Each failing field gets its message, and valid exactly when there is no error. |
| ContactPage.ContactForm.HandleSubmit | client/src/pages/Contact.jsx:88-106 | The form is sent exactly when there is no error, and then all four fields are reset to ''. On an invalid submit the errors are exactly the failing fields' messages and the fields are kept. |
| ContactPage.CollectErrors | client/src/pages/Contact.jsx:61-86 | Gives one message per failing check, with 'required' before 'too short' for the message. |
| ContactPage.PageAndValidatorChecks | client/src/pages/Contact.jsx:78-82 | The page agrees with the shared validators on name and email, but trims the message first. A message of 10 code units starting with a space passes `validateContactForm` and fails the page. |
| ProductFormEditor.Or | client/src/components/admin/ProductForm.jsx:10-16 | `a \|\| b` is `a` when truthy, else `b`. |
| ProductFormEditor.Coalesce | client/src/components/admin/ProductForm.jsx:16 | `a ?? b`, which the corrected stock initialiser uses in place of `\|\|`, is `b` only for null or undefined. |
| ProductFormEditor.InitialFeatures | client/src/components/admin/ProductForm.jsx:22 | Key features default to [''], so there is at least one line unless the product carries an empty list. |
| ProductFormEditor.NewProductDefaults | client/src/components/admin/ProductForm.jsx:9-28 | A new product's form has every text and number '', badge 'primary', in stock, other boxes unticked, and one empty feature line. |
| ProductFormEditor.EditShowsProduct | client/src/components/admin/ProductForm.jsx:9-28 | An edited product's set properties are shown unchanged. In stock is ticked unless `inStock === false`, and its features are shown. |
| ProductFormEditor.InitialStock | client/src/components/admin/ProductForm.jsx:16 | The corrected stock initialiser keeps a numeric stock, 0 included. |
| ProductFormEditor.OutOfStockEditRejectedAsWritten | client/src/components/admin/ProductForm.jsx:16 | As written, a stock of 0 becomes '', which validation rejects. |
| ProductFormEditor.UnchangedStockAccepted | client/src/components/admin/ProductForm.jsx:90 | With the correction, any whole non-negative stock passes unchanged. |
| ProductFormEditor.StockChecksAgreeOnText | client/src/components/admin/ProductForm.jsx:90 | The corrected check agrees with the written one on every typed text and differs only on the number 0. |
| ProductFormEditor.WithoutIndex | client/src/components/admin/ProductForm.jsx:74-77 | Removing line `i` drops exactly that line and keeps the others in order. An out-of-range index changes nothing. |
| ProductFormEditor.RemoveAddedFeature | client/src/components/admin/ProductForm.jsx:67-77 | Adding a line and then removing it restores the list. |
| ProductFormEditor.RemoveKeepsOtherLines | client/src/components/admin/ProductForm.jsx:74-77 | The removal keeps every other line; the multiset loses exactly the removed one. |
| ProductFormEditor.CleanFeaturesMeaning | client/src/components/admin/ProductForm.jsx:105 | The cleaned list holds exactly the non-blank lines, in order. |
| ProductFormEditor.CollectErrors | client/src/components/admin/ProductForm.jsx:79-96 | A field has an entry exactly when its check fails, carrying the form's message for it. Every entry is a message that is shown. |
| ProductFormEditor.ProductForm.constructor | client/src/components/admin/ProductForm.jsx:9-30 | Corrected: the form starts from the initial values, features and images, with no errors; a stock of 0 starts as 0 (`??`), not ''. |
| ProductFormEditor.ProductForm.HandleChange | client/src/components/admin/ProductForm.jsx:49-59 | A checkbox stores `checked` and any other input its text. Only that input's error is cleared (set to null), and only when it was showing. Afterwards it shows no error. |
| ProductFormEditor.ProductForm.HandleFeatureChange | client/src/components/admin/ProductForm.jsx:61-65 | Only line `index` is replaced. |
| ProductFormEditor.ProductForm.AddFeature | client/src/components/admin/ProductForm.jsx:67-72 | One empty line is appended. |
| ProductFormEditor.ProductForm.RemoveFeature | client/src/components/admin/ProductForm.jsx:74-77 | Drops exactly line `index`. Because the button is shown only with two or more lines, at least one line remains. |
| ProductFormEditor.ProductForm.ValidateForm | client/src/components/admin/ProductForm.jsx:79-96 | Corrected: flags each of a blank name, a missing category, a missing or non-positive price, a blank description and a missing or negative stock (the number 0 accepted), each with its message. Valid exactly when there is no error. |
| ProductFormEditor.ProductForm.HandleSubmit | client/src/components/admin/ProductForm.jsx:98-113 | Corrected: a record is saved exactly when there is no error, and an invalid submit sets the errors to exactly the failing fields' messages. A saved record has the parsed price, stock and original price (null when empty), and the non-blank features. |
| ProductFormEditor.UnchangedEditPasses | client/src/components/admin/ProductForm.jsx:79-96 | Corrected: a product that meets every check, a stock of 0 included, passes validation when saved unedited. |
| AdminProductsPage.SaveEdit | client/src/pages/adminProducts.jsx:29-34 | Products with the edited id become the form data under that id. All others are unchanged. |
| AdminProductsPage.SaveNew | client/src/pages/adminProducts.jsx:35-43 | Appends one product with id = length + 1, 0 sales and status 'active'. |
| AdminProductsPage.DeleteMeaning | client/src/pages/adminProducts.jsx:17-21 | Delete keeps exactly the products with another id, in order. |
| AdminProductsPage.SaveEditKeepsIds | client/src/pages/adminProducts.jsx:29-34 | Saving an edit keeps every id in place. |
| AdminProductsPage.SaveNewFreshWhileNumbered | client/src/pages/adminProducts.jsx:35-43 | While nothing was deleted, a new id is fresh and ids stay 1..n. |
| AdminProductsPage.SaveNewRepeatsIdAfterDelete | client/src/pages/adminProducts.jsx:17-43 | After deleting a product other than the last, the next new product repeats an existing id. |
| AdminProductsPage.DeleteNumbered | client/src/pages/adminProducts.jsx:17-21 | In a 1..n list, deleting id k removes exactly the k-th row. |
| AdminProductsPage.AdminProducts.constructor | client/src/pages/adminProducts.jsx:8-10 | The page starts with no products, no edited product, and the form closed. |
| AdminProductsPage.AdminProducts.HandleEdit | client/src/pages/adminProducts.jsx:12-15 | Stores the product (none for add) and opens the form. |
| AdminProductsPage.AdminProducts.HandleDelete | client/src/pages/adminProducts.jsx:17-21 | After confirmation removes that id, and otherwise nothing. |
| AdminProductsPage.AdminProducts.HandleSave | client/src/pages/adminProducts.jsx:27-47 | Replaces the edited product or appends a new one, then closes the form and clears the edited product. |
| AdminProductsPage.AdminProducts.HandleCancel | client/src/pages/adminProducts.jsx:49-52 | Closes the form and clears the edited product. |
| AdminLists.TotalPages | client/src/components/admin/ProductTable.jsx:82 | `ceil(n / perPage)` is the least page count that covers n rows, and 0 exactly for no rows. |
| AdminLists.PageOf | client/src/components/admin/ProductTable.jsx:80-81 | A page holds at most `perPage` rows, row k being item `start + k`. It has rows exactly when its start index lies inside the list. |
| AdminLists.PageStartBound | client/src/components/admin/ProductTable.jsx:80-82 | A page starts inside the list exactly when its number is at most the page count. |
| AdminLists.FirstPagesArePrefix | client/src/components/admin/ProductTable.jsx:80-82 | Pages 1..k together are the first k × perPage rows. |
| AdminLists.PagesCoverList | client/src/components/admin/ProductTable.jsx:80-82 | All pages together are the whole list, with nothing lost or repeated. |
| AdminLists.SummaryCountsShownRows | client/src/components/admin/ProductTable.jsx:314-315 | "Showing a to b of n" spans exactly the rows of the page. An empty list reads 1 to 0. |
| AdminLists.ReplaceWhere | client/src/components/admin/ReviewManager.jsx:95-101 | The map-by-id updates exactly the matching rows and keeps the length. |
| AdminLists.ThreeWayCount | client/src/components/admin/ReviewManager.jsx:130-134 | Three distinct status counts add up to the total when every row has one of them. |
| AdminLists.ReplaceNeverAdds | client/src/components/admin/MessageViewer.jsx:90-112 | An update that never creates a row in a class can only lower that class's count. |
| ProductTableView.DisplayProducts | client/src/components/admin/ProductTable.jsx:70 | The built-in products are used only when the given list is empty. |
| ProductTableView.FilteredMeaning | client/src/components/admin/ProductTable.jsx:73-77 | The rows are exactly those whose name contains the search, ignoring case, and in the selected category unless it is 'all', in order. An empty search with 'all' keeps all rows. |
| ProductTableView.Distinct | client/src/components/admin/ProductTable.jsx:85 | `[...new Set(s)]` has the same elements and no repeats. |
| ProductTableView.DistinctInFirstAppearanceOrder | client/src/components/admin/ProductTable.jsx:85 | The distinct values come in order of first appearance. |
| ProductTableView.CategoryOptions | client/src/components/admin/ProductTable.jsx:85 | The options are 'all' followed by each category of the rows exactly once. |
| ProductTableView.StatusBadge | client/src/components/admin/ProductTable.jsx:103-111 | Out of Stock exactly when stock is 0 or the status says so. In Stock exactly when stock is not 0, is 10 or more, and neither status flag is set. |
| ProductTableView.BadgeMonotone | client/src/components/admin/ProductTable.jsx:103-111 | Less stock never shows a better badge. |
| ProductTableView.DefaultBadges | client/src/components/admin/ProductTable.jsx:17-68 | The built-in rows show In Stock, Low Stock and Out of Stock as listed. |
| ProductTableView.ToggleSelected | client/src/components/admin/ProductTable.jsx:95-101 | The id is selected afterwards exactly when it was not before, and other ids are untouched. |
| ProductTableView.ToggleTwiceRestores | client/src/components/admin/ProductTable.jsx:95-101 | Selecting and then deselecting restores the selection exactly. |
| ProductTableView.Ids | client/src/components/admin/ProductTable.jsx:89 | The ids of the rows, in order. |
| ProductTableView.ProductTable.constructor | client/src/components/admin/ProductTable.jsx:10-14 | The table starts with an empty search, 'all', page 1 and nothing selected. |
| ProductTableView.ProductTable.HandleSelectAll | client/src/components/admin/ProductTable.jsx:87-93 | Selects exactly the page's ids, or clears the selection. The header box is then checked. |
| ProductTableView.ProductTable.HandleSelectProduct | client/src/components/admin/ProductTable.jsx:95-101 | Toggles that id. |
| ReviewModeration.RatingFilterIsNumeric | client/src/components/admin/ReviewManager.jsx:86 | Comparing rating texts is comparing ratings. |
| ReviewModeration.FilteredMeaning | client/src/components/admin/ReviewManager.jsx:84-88 | The reviews are exactly those matching the status (unless 'all') and the rating (unless 'all'), in order. |
| ReviewModeration.SetStatus | client/src/components/admin/ReviewManager.jsx:95-109 | Only reviews with the id get the status, and the count is kept. |
| ReviewModeration.OfferedActions | client/src/components/admin/ReviewManager.jsx:267-306 | Pending offers approve and reject, rejected offers approve, approved offers reject. |
| ReviewModeration.ActionsLeavePending | client/src/components/admin/ReviewManager.jsx:267-306 | No offered action leads to 'pending', and every one changes the status. |
| ReviewModeration.ModerationNeverAddsPending | client/src/components/admin/ReviewManager.jsx:95-109 | Approving or rejecting never raises the pending count. |
| ReviewModeration.StatusCountsAddUp | client/src/components/admin/ReviewManager.jsx:130-134 | approved + pending + rejected = total when every status is one of the three. |
| ReviewModeration.DeleteMeaning | client/src/components/admin/ReviewManager.jsx:111-115 | Delete keeps exactly the reviews with another id, in order. |
| ReviewModeration.ReviewManager.constructor | client/src/components/admin/ReviewManager.jsx:78-81 | The screen starts with the built-in reviews, both filters 'all', and page 1. |
| ReviewModeration.ReviewManager.HandleApprove | client/src/components/admin/ReviewManager.jsx:95-101 | That review becomes 'approved'. |
| ReviewModeration.ReviewManager.HandleReject | client/src/components/admin/ReviewManager.jsx:103-109 | That review becomes 'rejected'. |
| ReviewModeration.ReviewManager.HandleDelete | client/src/components/admin/ReviewManager.jsx:111-115 | After confirmation removes that id, and otherwise nothing. |
| MessageInbox.FilteredMeaning | client/src/components/admin/MessageViewer.jsx:76-83 | The messages are exactly those matching the status and a case-insensitive search on name, email or subject, in order. An empty search with 'all' keeps all. |
| MessageInbox.SetStatus | client/src/components/admin/MessageViewer.jsx:90-112 | Only messages with the id get the status, and the length is kept. |
| MessageInbox.ToggleStar | client/src/components/admin/MessageViewer.jsx:114-120 | Only the target's starred flag flips; every other message is unchanged. |
| MessageInbox.ToggleStarTwice | client/src/components/admin/MessageViewer.jsx:114-120 | Starring twice restores the list. |
| MessageInbox.ReadThenUnreadRestores | client/src/components/admin/MessageViewer.jsx:90-104 | Marking an unread message read and then unread restores the list. |
| MessageInbox.ReadOrArchiveNeverAddsUnread | client/src/components/admin/MessageViewer.jsx:90-112 | Reading or archiving never raises the unread count. |
| MessageInbox.StatusCountsAddUp | client/src/components/admin/MessageViewer.jsx:149-154 | unread + read + archived = total when every status is one of the three. |
| MessageInbox.DeleteMeaning | client/src/components/admin/MessageViewer.jsx:122-127 | Delete keeps exactly the messages with another id, in order. |
| MessageInbox.MessageViewer.constructor | client/src/components/admin/MessageViewer.jsx:69-73 | The inbox starts with the built-in messages, no dialog, 'all', an empty search, and page 1. |
| MessageInbox.MessageViewer.HandleMarkAsRead | client/src/components/admin/MessageViewer.jsx:90-96 | That message becomes 'read'. |
| MessageInbox.MessageViewer.HandleMarkAsUnread | client/src/components/admin/MessageViewer.jsx:98-104 | That message becomes 'unread'. |
| MessageInbox.MessageViewer.HandleArchive | client/src/components/admin/MessageViewer.jsx:106-112 | That message becomes 'archived'. |
| MessageInbox.MessageViewer.HandleToggleStar | client/src/components/admin/MessageViewer.jsx:114-120 | That message's star flips. |
| MessageInbox.MessageViewer.HandleDelete | client/src/components/admin/MessageViewer.jsx:122-127 | After confirmation removes that message and closes the dialog. Otherwise nothing changes. |
| MessageInbox.MessageViewer.HandleViewMessage | client/src/components/admin/MessageViewer.jsx:129-134 | Opens the dialog on the message and marks it read when unread; read and archived messages are unchanged. The dialog keeps its old copy, so it offers no "Mark as Unread" then. |
| MessageInbox.MessageViewer.ArchiveSelected | client/src/components/admin/MessageViewer.jsx:371-374 | Archives the shown message and closes the dialog. |
| CategoryAdmin.SaveEdit | client/src/components/admin/CategoryManager.jsx:65-73 | The edited category takes the form's name, description and icon, keeping its id and count. The others are unchanged. |
| CategoryAdmin.SaveNew | client/src/components/admin/CategoryManager.jsx:75-81 | Appends `{id: length + 1, …form, productCount: 0}`. |
| CategoryAdmin.SavesKeepTotal | client/src/components/admin/CategoryManager.jsx:61-85 | Adding or editing keeps the product total. |
| CategoryAdmin.AverageWithinCounts | client/src/components/admin/CategoryManager.jsx:284-298 | The rounded average lies between the smallest and largest counts. |
| CategoryAdmin.InitialStatistics | client/src/components/admin/CategoryManager.jsx:9-15 | The built-in categories hold 45 products, 9 per category on average. |
| CategoryAdmin.DeleteMeaning | client/src/components/admin/CategoryManager.jsx:87-91 | Delete keeps exactly the categories with another id, in order. |
| CategoryAdmin.CategoryManager.constructor | client/src/components/admin/CategoryManager.jsx:9-24 | The screen starts with the built-in categories, the dialog closed, and an empty form. |
| CategoryAdmin.CategoryManager.HandleOpenModal | client/src/components/admin/CategoryManager.jsx:26-40 | The dialog opens filled from the category, or empty for a new one, with no errors. |
| CategoryAdmin.CategoryManager.HandleCloseModal | client/src/components/admin/CategoryManager.jsx:42-47 | The dialog closes, the form is reset, and the errors are cleared. |
| CategoryAdmin.CategoryManager.ValidateForm | client/src/components/admin/CategoryManager.jsx:49-59 | Name and description must not be blank; each blank one gets its message and no other key is set. Valid exactly when neither is. |
| CategoryAdmin.CategoryManager.HandleSubmit | client/src/components/admin/CategoryManager.jsx:61-85 | Saves exactly when valid (edit or add), then resets. An invalid submit sets the errors to exactly the blank fields' messages and changes nothing else. |
| CategoryAdmin.CategoryManager.HandleDelete | client/src/components/admin/CategoryManager.jsx:87-91 | After confirmation removes that id, and otherwise nothing. |
| ProductReviewPanel.DisplayReviews | client/src/components/product-detail/Reviews.jsx:95 | The built-in reviews are used only when the product has none. |
| ProductReviewPanel.DisplayNeverEmpty | client/src/components/product-detail/Reviews.jsx:95-110 | There is always a review, so the breakdown never divides by zero. |
| ProductReviewPanel.RatingCountsAddUp | client/src/components/product-detail/Reviews.jsx:98-104 | With ratings 1..5, the five bars count every review once. |
| ProductReviewPanel.ShownAsWrittenMeaning | client/src/components/product-detail/Reviews.jsx:205 | As written, the first min(visible, total) reviews are shown. "Load More" shows exactly while some review is hidden. |
| ProductReviewPanel.StarFilterIgnoredAsWritten | client/src/components/product-detail/Reviews.jsx:142-205 | As written, choosing 1 star still lists a 5-star review first, although no review has 1 star. |
| ProductReviewPanel.Shown | client/src/components/product-detail/Reviews.jsx:205 | Corrected: the first min(visible, matching) reviews that match the star filter, in order. |
| ProductReviewPanel.ShownMeaning | client/src/components/product-detail/Reviews.jsx:142-205 | Every review shown has the chosen star count. With 'all', the list is the one shown as written. |
| ProductReviewPanel.ReviewPanel.constructor | client/src/components/product-detail/Reviews.jsx:9-11 | The panel starts with 'helpful', 'all' and 5 visible. |
| ProductReviewPanel.ReviewPanel.HandleLoadMore | client/src/components/product-detail/Reviews.jsx:112-114 | Corrected: five more of the reviews matching the star filter become visible, or all the rest. The reviews shown before stay first. |
| ProductReviewPanel.ReviewPanel.SelectStar | client/src/components/product-detail/Reviews.jsx:148 | The filter becomes the star's text. |
| ProductReviewPanel.ReviewPanel.ClearFilter | client/src/components/product-detail/Reviews.jsx:194-201 | The filter becomes 'all', so the list is the unfiltered one. |
| Session.MockToken | client/src/hooks/useauth.js:38 | The token is 'mock-jwt-token-' followed by text that `parseInt` reads back as the clock reading. |
| Session.LoginUser | client/src/hooks/useauth.js:31-36 | The signed-in user is id 1 with role 'admin' and the entered email. |
| Session.RegisteredUser | client/src/hooks/useauth.js:67-71 | The user data is kept, with a clock id unless the data has one, and the role forced to 'user'. |
| Session.Merged | client/src/hooks/useauth.js:94-95 | The updates win, and the user's other keys are kept. |
| Session.UpdateAndAdmin | client/src/hooks/useauth.js:94-95 | An update makes an admin exactly when it sets the role to 'admin', or keeps an admin's role. |
| Session.Auth.constructor | client/src/hooks/useauth.js:9-11 | The hook starts from the stored user and token, not loading. |
| Session.Auth.BeginRequest | client/src/hooks/useauth.js:21 | Loading is set while a request runs. |
| Session.Auth.Login | client/src/hooks/useauth.js:20-49 | Signs in the admin with a token. Afterwards the user is authenticated and an admin, and loading has stopped. |
| Session.Auth.Logout | client/src/hooks/useauth.js:52-57 | The user and token are cleared, so the user is neither authenticated nor admin. |
| Session.Auth.Register | client/src/hooks/useauth.js:60-84 | Signs in the new user with a token. The user is authenticated, not admin, and loading has stopped. |
| Session.Auth.UpdateProfile | client/src/hooks/useauth.js:87-103 | Merges the updates and keeps the token, so an authenticated user stays authenticated. |
| ColourTheme.Toggled | client/src/contexts/Themecontext.jsx:29-31 | The result is dark exactly when the theme was light, and light otherwise. |
| ColourTheme.ToggleTwice | client/src/contexts/Themecontext.jsx:29-31 | Toggling twice restores light or dark. Any other value becomes light, then dark. |
| ColourTheme.ThemeState.constructor | client/src/contexts/Themecontext.jsx:15 | The theme starts light. |
| ColourTheme.ThemeState.NotBoth | client/src/contexts/Themecontext.jsx:43-44 | `isDark` and `isLight` are never both true. |
| ColourTheme.ThemeState.ToggleTheme | client/src/contexts/Themecontext.jsx:29-31 | Dark exactly when it was light before. |
| ColourTheme.ThemeState.SetLightTheme | client/src/contexts/Themecontext.jsx:34-36 | The theme is light, whatever it was. |
| ColourTheme.ThemeState.SetDarkTheme | client/src/contexts/Themecontext.jsx:38-40 | The theme is dark, whatever it was. |
| IndexWrap.Next | client/src/components/home/Testimonials.jsx:67 | `(i + 1) % n` stays in range and wraps from the last index to 0. |
| IndexWrap.Prev | client/src/components/home/Testimonials.jsx:71 | `(i - 1 + n) % n` stays in range and wraps from 0 to the last index. |
| IndexWrap.PrevNextInverse | client/src/components/home/Testimonials.jsx:66-72 | Next then previous, or previous then next, returns to the index. |
| IndexWrap.AdvanceIsModular | client/src/components/common/FadeCarousel.jsx:33-35 | k steps forward land on `(i + k) % n`. |
| IndexWrap.FullCycle | client/src/components/common/FadeCarousel.jsx:33-35 | n steps return to the start. |
| TestimonialSlider.IdsFollowPositions | client/src/components/home/Testimonials.jsx:9-64 | The testimonial at position k has id k + 1. |
| TestimonialSlider.Slider.constructor | client/src/components/home/Testimonials.jsx:7 | The slider starts at index 0. |
| TestimonialSlider.Slider.NextTestimonial | client/src/components/home/Testimonials.jsx:66-68 | Moves to the next index, wrapping. |
| TestimonialSlider.Slider.PrevTestimonial | client/src/components/home/Testimonials.jsx:70-72 | Moves to the previous index, wrapping. |
| TestimonialSlider.Slider.SelectDot | client/src/components/home/Testimonials.jsx:187 | Dot k selects index k. |
| TestimonialSlider.Slider.GetVisibleTestimonials | client/src/components/home/Testimonials.jsx:74-80 | Returns the three testimonials at i, i+1, i+2 mod n, all different. |
| FadeSlides.FadeCarousel.constructor | client/src/components/common/FadeCarousel.jsx:12-13 | The carousel starts at slide 0, not paused. |
| FadeSlides.FadeCarousel.ActiveSlides | client/src/components/common/FadeCarousel.jsx:45-51 | Exactly one slide, the current one, is active. |
| FadeSlides.FadeCarousel.GoToSlide | client/src/components/common/FadeCarousel.jsx:25-27 | Indicator k selects slide k. |
| FadeSlides.FadeCarousel.PrevSlide | client/src/components/common/FadeCarousel.jsx:29-31 | Moves one slide back, wrapping. |
| FadeSlides.FadeCarousel.NextSlide | client/src/components/common/FadeCarousel.jsx:33-35 | Moves one slide forward, wrapping. |
| FadeSlides.FadeCarousel.Tick | client/src/components/common/FadeCarousel.jsx:15-23 | A tick moves forward only while not paused. |
| FadeSlides.FadeCarousel.MouseEnter | client/src/components/common/FadeCarousel.jsx:40 | Mouse enter pauses. |
| FadeSlides.FadeCarousel.MouseLeave | client/src/components/common/FadeCarousel.jsx:41 | Mouse leave resumes. |
| FadeSlides.FadeCarousel.RunTicks | client/src/components/common/FadeCarousel.jsx:15-23 | k unpaused ticks advance by k slides, modulo the count. |
| ProductGallery.DisplayImages | client/src/components/product-detail/ImageGallery.jsx:17 | There is always an image. The four placeholders are used only for an empty list. |
| ProductGallery.GalleryStepsAreModular | client/src/components/product-detail/ImageGallery.jsx:19-25 | The gallery's comparisons equal the modular step: in range, and mutually inverse. |
| ProductGallery.Gallery.constructor | client/src/components/product-detail/ImageGallery.jsx:6 | The gallery starts at the first image. |
| ProductGallery.Gallery.Counter | client/src/components/product-detail/ImageGallery.jsx:71 | The counter shows position 1..n of n, and position p is the image in the main view. |
| ProductGallery.Gallery.HandlePrevious | client/src/components/product-detail/ImageGallery.jsx:19-21 | From 0 goes to the last image, else back one. |
| ProductGallery.Gallery.HandleNext | client/src/components/product-detail/ImageGallery.jsx:23-25 | From the last image goes to 0, else forward one. |
| ProductGallery.Gallery.HandleThumbnailClick | client/src/components/product-detail/ImageGallery.jsx:27-29 | Thumbnail k selects image k. |
| IndustrySlides.Chunk | client/src/components/home/Industries.jsx:50-53 | The slides laid end to end give the list back. Slide j starts at item 3j. All but the last have 3 items, none is empty, and there are ceil(n/3). |
| IndustrySlides.IndustryCarouselSlides | client/src/components/home/Industries.jsx:10-53 | The six industries make two slides of three. |

## Left out

Outside the model:

- **Persistence.** Saving the cart, the session and the theme to browser storage. The session's stored user and token are its constructor's parameters; the stored cart and theme are dropped, so `CartStore` starts empty and `ThemeState` light.
- **Timers and delays.** The API's artificial delay, the contact form's simulated request, and the carousel's interval (`Tick` is one firing). Debounce and throttle.
- **Clock and randomness.** `Date.now()` and timestamps are a `now` parameter or left out. `getRelativeTime` takes the millisecond difference. `generateId` is not part of this model.
- **Floating point.**
  - The average ratings, the percentage bars, `toFixed` and `Intl` formatting.
  - The review panel's average rating and the review manager's average are not computed.
  - The mock data's decimal prices are whole cents.
- **JavaScript-level simplifications.**
  - `toLowerCase`/`toUpperCase` map ASCII letters only.
  - `parseInt`/`parseFloat` read decimal digits only: no hex, exponents or `Infinity`.
  - Object key order and records' extra keys are not represented.
  - Keys inherited from `Object.prototype` (a feature id or a `groupBy` key spelled `toString`) are not represented: an object holds only the keys the code sets.
- **Browser calls.** `window.confirm` is a boolean. `alert`, sharing, `mailto:`, `window.open`, navigation after Buy Now, the zoom dialog and all rendering are left out.
- **The fixture module of the mock API.** `./mockData` is not part of this model, so the store's arrays are constructor inputs.
- **Controlled-input setters.** Page, search and select inputs that only store the typed value, and the pagination component. Page numbers are assumed to be at least 1.
- **Auth error paths.** `login`, `register` and `updateProfile` catch errors that cannot arise for an object argument. A null or undefined argument, which throws a `TypeError`, is not modelled.

Weaker contracts and requires:

- `ProductFormEditor.ProductForm.constructor`: starts the stock from the corrected `product?.stock ?? ''`, so a stock of 0 starts as 0. As written it starts as '' (`InitialStockAsWritten`).
- `ProductFormEditor.ProductForm.ValidateForm`: uses the corrected stock check, which accepts the number 0. As written, `!formData.stock` rejects it (`StockRejectedAsWritten`, `OutOfStockEditRejectedAsWritten`).
- `ProductFormEditor.ProductForm.HandleSubmit`: validates with the corrected stock check above, so an unedited product with stock 0 is saved where the source rejects it.
- `ProductFormEditor.UnchangedEditPasses`: states the corrected behaviour; the source as written fails it for a stock of 0 (`OutOfStockEditRejectedAsWritten`).
- `ProductReviewPanel.ReviewPanel.HandleLoadMore` (with `ShownReviews` and `ShowsLoadMore`): counts and shows the reviews that match the star filter. As written, the list and the button ignore the filter (`ShownAsWritten`, `ShownAsWrittenMeaning`).
- `MockApi.NewProduct` (and `BlankProduct`): a field the data leaves out is undefined in JavaScript, so a missing price fails every price filter and a missing name makes search throw. The model stores '' or 0 instead.
- `MockApi.NewCategory` (and `BlankCategory`): an absent name, description or icon is undefined in JavaScript; the model stores ''.
- `MockApi.NewMessage`: an absent name, email, subject or message is undefined in JavaScript; the model stores ''.
- `Helpers.CalculateDiscount`: rounds the exact percentage, while the source rounds a double that can fall just below .5 at a tie. For 1000 down to 855, `((1000 - 855) / 1000) * 100` is 14.499999999999998 in doubles, so the source shows 14 where the model (`CalculateDiscount(100000, 85500)`, in cents) gives 15.
- `Helpers.SortByKey`: numeric keys only. The source compares any values with `<` and `>` (strings included), and its comparator never returns 0, so the order of ties is left to the engine; the model states no tie order.
- `Helpers.TruncateText`: `substring` can cut a surrogate pair in half, leaving a lone surrogate. The model keeps whole characters, so at a cut inside a pair its prefix is one code unit shorter.
- `ProductReviewPanel.ReviewPanel`: the sort select stores `sortBy` but the list never uses it. The model keeps the field and orders nothing.
- `FadeSlides.FadeCarousel.constructor`: requires at least one slide. With none, `% 0` yields NaN in the source.
- `TestimonialSlider.Slider`: fixed to the component's six testimonials, as in the source.
- `IndustrySlides.IndustryCarouselSlides`: the industries' image URLs are not carried.
- `ProductTableView.ProductTable`: the eye button's `onView` callback is not modelled; the products page only opens the product in a new window.

## Findings

| source | as written | input that shows it | evidently intended | confidence | as-written member | corrected member |
|---|---|---|---|---|---|---|
| client/src/components/admin/ProductForm.jsx:16 | `stock: product?.stock \|\| ''` turns a stock of 0 into ''. `!formData.stock` (line 90) then rejects it as missing. | Editing a product with `stock: 0` and saving it unchanged gives "Valid stock quantity is required". | A stock of 0 is kept and accepted. | high, not executed | ProductFormEditor.OutOfStockEditRejectedAsWritten | ProductFormEditor.UnchangedStockAccepted |
| client/src/components/product-detail/Reviews.jsx:205 | The star bars set `filterRating` (line 148) and "Clear filter" resets it, but the list renders `displayReviews.slice(0, visibleReviews)` without it. | The built-in reviews with the 1-star bar chosen: the list still starts with a 5-star review, although no review has 1 star. | The list shows only the reviews with the chosen star count. | high, not executed | ProductReviewPanel.StarFilterIgnoredAsWritten | ProductReviewPanel.ShownMeaning |
