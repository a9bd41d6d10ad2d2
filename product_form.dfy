/**
 * The admin product editor (`components/admin/ProductForm.jsx`): a form filled
 * from the product being edited (or blank for a new one), its key-feature list,
 * its validation and the cleaned record it hands to `onSave`.
 */
module ProductFormEditor {
  import opened Js
  import opened Validators

  /** The form's inputs that `handleChange` serves, one per `name` attribute. */
  datatype Input =
    | NameInput | TaglineInput | CategoryInput | DescriptionInput
    | PriceInput | OriginalPriceInput | StockInput | BadgeInput | BadgeVariantInput
    | InStockBox | AiPoweredBox | VoiceControlBox | AppControlBox
    | AutoChargingBox | SmartMappingBox | SchedulingBox

  const AllInputs: set<Input> := {
    NameInput, TaglineInput, CategoryInput, DescriptionInput,
    PriceInput, OriginalPriceInput, StockInput, BadgeInput, BadgeVariantInput,
    InStockBox, AiPoweredBox, VoiceControlBox, AppControlBox,
    AutoChargingBox, SmartMappingBox, SchedulingBox}

  /** The input's `name`, which is also its key in the form data and in the errors object. */
  function Key(i: Input): string
  {
    match i
    case NameInput => "name"
    case TaglineInput => "tagline"
    case CategoryInput => "category"
    case DescriptionInput => "description"
    case PriceInput => "price"
    case OriginalPriceInput => "originalPrice"
    case StockInput => "stock"
    case BadgeInput => "badge"
    case BadgeVariantInput => "badgeVariant"
    case InStockBox => "inStock"
    case AiPoweredBox => "aiPowered"
    case VoiceControlBox => "voiceControl"
    case AppControlBox => "appControl"
    case AutoChargingBox => "autoCharging"
    case SmartMappingBox => "smartMapping"
    case SchedulingBox => "scheduling"
  }

  predicate IsCheckbox(i: Input)
  {
    i in {InStockBox, AiPoweredBox, VoiceControlBox, AppControlBox, AutoChargingBox, SmartMappingBox, SchedulingBox}
  }

  lemma KeysDistinct(i: Input, j: Input)
    ensures Key(i) == Key(j) <==> i == j
  {
  }

  /** The category options of the select. */
  const Categories: seq<string> := ["Robot Cleaners", "Kitchen Robots", "Lawn Care", "Service Robots", "Smart Home"]

  /** The badge colour options of the select. */
  const BadgeVariants: seq<string> := ["primary", "success", "warning", "danger", "info", "purple"]

  /**
   * The `product` prop: its scalar properties (a key it lacks reads as `undefined`)
   * and its two arrays, `None` when the product has no such array.
   */
  datatype Product = Product(props: map<string, Value>, keyFeatures: Option<seq<string>>, images: Option<seq<string>>)

  /** `product?.[key]`, with `product = null` for a new product. */
  function Prop(product: Option<Product>, key: string): Value
  {
    if product.Some? && key in product.value.props then product.value.props[key] else Undefined
  }

  /** `a || b` */
  function Or(a: Value, b: Value): (r: Value)
    ensures Truthy(a) ==> r == a
    ensures !Truthy(a) ==> r == b
  {
    if Truthy(a) then a else b
  }

  /** `a ?? b` */
  function Coalesce(a: Value, b: Value): (r: Value)
    ensures a.Undefined? || a.Null? ==> r == b
    ensures !(a.Undefined? || a.Null?) ==> r == a
  {
    if a.Undefined? || a.Null? then b else a
  }

  // ---------------------------------------------------------------------------
  // The initial state
  // ---------------------------------------------------------------------------

  /**
   * The initial value of one input.  The stock input is filled by `InitialStock`
   * (see `InitialStockAsWritten` for the form's own expression).
   */
  function InitialValue(product: Option<Product>, i: Input): Value
  {
    match i
    case InStockBox => Bool(Prop(product, "inStock") != Bool(false))
    case BadgeVariantInput => Or(Prop(product, "badgeVariant"), Str("primary"))
    case StockInput => InitialStock(product)
    case _ => if IsCheckbox(i) then Or(Prop(product, Key(i)), Bool(false)) else Or(Prop(product, Key(i)), Str(""))
  }

  /** `stock: product?.stock || ''`, as written: a stock of 0 is falsy and becomes ''. */
  function InitialStockAsWritten(product: Option<Product>): Value
  {
    Or(Prop(product, "stock"), Str(""))
  }

  /** The stock the form starts from, keeping a stock of 0: `product?.stock ?? ''`. */
  function InitialStock(product: Option<Product>): (r: Value)
    ensures Prop(product, "stock").Num? ==> r == Prop(product, "stock")
    ensures Prop(product, "stock").Undefined? ==> r == Str("")
  {
    Coalesce(Prop(product, "stock"), Str(""))
  }

  function InitialValues(product: Option<Product>): map<Input, Value>
  {
    map i | i in AllInputs :: InitialValue(product, i)
  }

  /** `keyFeatures: product?.keyFeatures || ['']` (an array is never falsy). */
  function InitialFeatures(product: Option<Product>): (r: seq<string>)
    ensures |r| >= 1 || (product.Some? && product.value.keyFeatures == Some([]))
  {
    if product.Some? && product.value.keyFeatures.Some? then product.value.keyFeatures.value else [""]
  }

  /** `images: product?.images || []` */
  function InitialImages(product: Option<Product>): seq<string>
  {
    if product.Some? && product.value.images.Some? then product.value.images.value else []
  }

  /** A product whose name and description, when set, are strings: `.trim()` is then defined on them. */
  predicate TextPropsAreStrings(product: Option<Product>)
  {
    (Truthy(Prop(product, "name")) ==> Prop(product, "name").Str?)
    && (Truthy(Prop(product, "description")) ==> Prop(product, "description").Str?)
  }

  /**
   * A blank form for a new product: every text and number input is '', the badge
   * colour is the first option, the product is in stock, no feature box is ticked,
   * and one empty key-feature line is shown.
   */
  lemma NewProductDefaults(i: Input)
    ensures i in InitialValues(None)
    ensures !IsCheckbox(i) && i != BadgeVariantInput ==> InitialValues(None)[i] == Str("")
    ensures InitialValues(None)[BadgeVariantInput] == Str(BadgeVariants[0])
    ensures InitialValues(None)[InStockBox] == Bool(true)
    ensures IsCheckbox(i) && i != InStockBox ==> InitialValues(None)[i] == Bool(false)
    ensures InitialFeatures(None) == [""] && InitialImages(None) == []
  {
    AllInputsComplete(i);
  }

  /**
   * Editing a product: every input whose property is set (truthy) shows it unchanged,
   * and the in-stock box is ticked unless the product says `inStock: false`.
   */
  lemma EditShowsProduct(p: Product, i: Input)
    ensures i in InitialValues(Some(p))
    ensures i != InStockBox && Truthy(Prop(Some(p), Key(i))) ==> InitialValues(Some(p))[i] == Prop(Some(p), Key(i))
    ensures InitialValues(Some(p))[InStockBox] == Bool(Prop(Some(p), "inStock") != Bool(false))
    ensures p.keyFeatures.Some? ==> InitialFeatures(Some(p)) == p.keyFeatures.value
  {
    AllInputsComplete(i);
  }

  /** The initial form data has an entry for every input, and a name and description that are strings. */
  lemma InitialValuesComplete(product: Option<Product>)
    requires TextPropsAreStrings(product)
    ensures forall i: Input :: i in InitialValues(product)
    ensures InitialValues(product)[NameInput].Str? && InitialValues(product)[DescriptionInput].Str?
  {
    forall i: Input ensures i in InitialValues(product) {
      AllInputsComplete(i);
    }
  }

  lemma AllInputsComplete(i: Input)
    ensures i in AllInputs
  {
  }

  // ---------------------------------------------------------------------------
  // The stock check and its correction
  // ---------------------------------------------------------------------------

  /** `!formData.stock || parseInt(formData.stock) < 0`, as written. */
  predicate StockRejectedAsWritten(stock: Value)
  {
    !Truthy(stock) || Less(ParseIntValue(stock), FromInt(0))
  }

  /** The stock check with an empty input, not a falsy value, counted as missing. */
  predicate StockMissingOrNegative(stock: Value)
  {
    stock == Str("") || Less(ParseIntValue(stock), FromInt(0))
  }

  /** A product with `stock: 0` and the form's initial stock. */
  function OutOfStockProduct(): Product
  {
    Product(map["stock" := Num(FromInt(0))], None, None)
  }

  /**
   * As written, an out-of-stock product cannot be saved unchanged: its stock of 0
   * becomes '' in the form, and '' is rejected as a missing stock.
   */
  lemma OutOfStockEditRejectedAsWritten()
    ensures InitialStockAsWritten(Some(OutOfStockProduct())) == Str("")
    ensures StockRejectedAsWritten(InitialStockAsWritten(Some(OutOfStockProduct())))
  {
  }

  /**
   * With the stock kept and only an empty input counted as missing, the stock of
   * any product that has a whole, non-negative stock passes unchanged.
   */
  lemma UnchangedStockAccepted(p: Product, n: int)
    requires Prop(Some(p), "stock") == Num(FromInt(n)) && n >= 0
    ensures InitialStock(Some(p)) == Num(FromInt(n))
    ensures !StockMissingOrNegative(InitialStock(Some(p)))
  {
    assert ParseIntValue(Num(FromInt(n))) == FromInt(n);
  }

  /**
   * The correction changes nothing for what the stock input itself produces: on any
   * typed text the two checks agree.  They differ only on the falsy number 0.
   */
  lemma StockChecksAgreeOnText(s: string)
    ensures StockMissingOrNegative(Str(s)) <==> StockRejectedAsWritten(Str(s))
    ensures StockRejectedAsWritten(Num(FromInt(0))) && !StockMissingOrNegative(Num(FromInt(0)))
  {
    assert ParseIntValue(Num(FromInt(0))) == FromInt(0);
  }

  // ---------------------------------------------------------------------------
  // The key-feature list
  // ---------------------------------------------------------------------------

  /** `features.filter((_, i) => i !== index)`: every line except the one at `index`, in order. */
  function WithoutIndex<T>(features: seq<T>, index: int): (r: seq<T>)
    ensures 0 <= index < |features| ==> |r| == |features| - 1
    ensures !(0 <= index < |features|) ==> r == features
    ensures forall j :: 0 <= j < |r| && j < index ==> r[j] == features[j]
    ensures forall j :: 0 <= index <= j < |r| ==> r[j] == features[j + 1]
  {
    if 0 <= index < |features| then features[..index] + features[index + 1..] else features
  }

  /** Adding a line and removing it again restores the list. */
  lemma RemoveAddedFeature(features: seq<string>)
    ensures WithoutIndex(features + [""], |features|) == features
  {
    assert (features + [""])[..|features|] == features;
  }

  /** Removing line `index`, the only line the removal touches, keeps every other line's text. */
  lemma RemoveKeepsOtherLines(features: seq<string>, index: int, k: int)
    requires 0 <= index < |features| && 0 <= k < |features| && k != index
    ensures features[k] in WithoutIndex(features, index)
    ensures multiset(WithoutIndex(features, index)) + multiset{features[index]} == multiset(features)
  {
    var r := WithoutIndex(features, index);
    if k < index {
      assert r[k] == features[k];
    } else {
      assert r[k - 1] == features[k];
    }
    assert features == features[..index] + [features[index]] + features[index + 1..];
  }

  /** A line that `handleSubmit` keeps: `f.trim() !== ''`. */
  predicate NotBlankFeature(f: string)
  {
    Trim(f) != ""
  }

  /** `keyFeatures.filter((f) => f.trim() !== '')` */
  function CleanFeatures(features: seq<string>): seq<string>
  {
    Filter(features, NotBlankFeature)
  }

  /**
   * The cleaned list holds exactly the lines that are not all whitespace, in their
   * original order.
   */
  lemma CleanFeaturesMeaning(features: seq<string>)
    ensures IsSubsequence(CleanFeatures(features), features)
    ensures forall f :: f in CleanFeatures(features) <==> f in features && !AllWhitespace(f)
  {
    FilterIsSubsequence(features, NotBlankFeature);
    forall f ensures NotBlankFeature(f) <==> !AllWhitespace(f) {
      BlankIffAllWhitespace(f);
    }
  }

  // ---------------------------------------------------------------------------
  // Validation and the saved record
  // ---------------------------------------------------------------------------

  /**
   * The if-chain of `validateForm`, given the outcome of each check: one message per
   * failing field.
   */
  method CollectErrors(nameBlank: bool, categoryMissing: bool, priceRejected: bool,
                       descriptionBlank: bool, stockRejected: bool)
    returns (newErrors: map<Input, Option<string>>)
    ensures newErrors.Keys <= {NameInput, CategoryInput, PriceInput, DescriptionInput, StockInput}
    ensures NameInput in newErrors <==> nameBlank
    ensures NameInput in newErrors ==> newErrors[NameInput] == Some("Product name is required")
    ensures CategoryInput in newErrors <==> categoryMissing
    ensures CategoryInput in newErrors ==> newErrors[CategoryInput] == Some("Category is required")
    ensures PriceInput in newErrors <==> priceRejected
    ensures PriceInput in newErrors ==> newErrors[PriceInput] == Some("Valid price is required")
    ensures DescriptionInput in newErrors <==> descriptionBlank
    ensures DescriptionInput in newErrors ==> newErrors[DescriptionInput] == Some("Description is required")
    ensures StockInput in newErrors <==> stockRejected
    ensures StockInput in newErrors ==> newErrors[StockInput] == Some("Valid stock quantity is required")
    ensures Shown(newErrors)
  {
    newErrors := map[];
    if nameBlank {
      newErrors := newErrors[NameInput := Some("Product name is required")];
    }
    if categoryMissing {
      newErrors := newErrors[CategoryInput := Some("Category is required")];
    }
    if priceRejected {
      newErrors := newErrors[PriceInput := Some("Valid price is required")];
    }
    if descriptionBlank {
      newErrors := newErrors[DescriptionInput := Some("Description is required")];
    }
    if stockRejected {
      newErrors := newErrors[StockInput := Some("Valid stock quantity is required")];
    }
  }

  /**
   * `errors` is the object `validateForm` builds from the outcome of each check:
   * the form's message for each failing field, and no other entry.
   */
  predicate ErrorsFor(errors: map<Input, Option<string>>, nameBlank: bool, categoryMissing: bool,
                      priceRejected: bool, descriptionBlank: bool, stockRejected: bool)
  {
    errors.Keys <= {NameInput, CategoryInput, PriceInput, DescriptionInput, StockInput}
    && (NameInput in errors <==> nameBlank)
    && (NameInput in errors ==> errors[NameInput] == Some("Product name is required"))
    && (CategoryInput in errors <==> categoryMissing)
    && (CategoryInput in errors ==> errors[CategoryInput] == Some("Category is required"))
    && (PriceInput in errors <==> priceRejected)
    && (PriceInput in errors ==> errors[PriceInput] == Some("Valid price is required"))
    && (DescriptionInput in errors <==> descriptionBlank)
    && (DescriptionInput in errors ==> errors[DescriptionInput] == Some("Description is required"))
    && (StockInput in errors <==> stockRejected)
    && (StockInput in errors ==> errors[StockInput] == Some("Valid stock quantity is required"))
  }

  /** Every entry of the errors object is a message that is shown (truthy). */
  predicate Shown(errors: map<Input, Option<string>>)
  {
    forall k :: k in errors ==> errors[k].Some? && errors[k].value != ""
  }

  /** The record passed to `onSave`: the form data with its numbers parsed and blank feature lines dropped. */
  datatype Saved = Saved(values: map<Input, Value>, keyFeatures: seq<string>, images: seq<string>)

  class ProductForm {
    /** `formData`, minus its two arrays; every input has an entry. */
    var values: map<Input, Value>
    var keyFeatures: seq<string>
    var images: seq<string>
    /**
     * The errors object, keyed by the input whose `name` is the key (`Key` is one to
     * one); `None` is an entry set to `null` when its field was edited.
     */
    var errors: map<Input, Option<string>>

    /** Every input has a value, and the two fields `validateForm` trims hold strings. */
    predicate Valid()
      reads this
    {
      (forall i: Input :: i in values) && values[NameInput].Str? && values[DescriptionInput].Str?
    }

    /** The input `i` shows an error message (`errors[i.name]` is truthy). */
    predicate ShowsError(i: Input)
      reads this
    {
      i in errors && errors[i].Some? && errors[i].value != ""
    }

    /** The remove button of a key-feature line is rendered: there is more than one line. */
    predicate ShowsRemoveButton()
      reads this
    {
      |keyFeatures| > 1
    }

    /** The form for `product`, or the blank form when there is none. */
    constructor(product: Option<Product>)
      requires TextPropsAreStrings(product)
      ensures Valid()
      ensures values == InitialValues(product)
      ensures keyFeatures == InitialFeatures(product) && images == InitialImages(product)
      ensures errors == map[]
    {
      values := InitialValues(product);
      keyFeatures := InitialFeatures(product);
      images := InitialImages(product);
      errors := map[];
      InitialValuesComplete(product);
    }

    /**
     * `handleChange(e)`: a checkbox stores `checked`, any other input its text; only
     * that input's error is cleared.
     */
    method HandleChange(i: Input, value: string, checked: bool)
      requires Valid()
      modifies this`values, this`errors
      ensures Valid()
      ensures values == old(values)[i := if IsCheckbox(i) then Bool(checked) else Str(value)]
      ensures old(ShowsError(i)) ==> errors == old(errors)[i := None]
      ensures !old(ShowsError(i)) ==> errors == old(errors)
      ensures !ShowsError(i)
    {
      values := values[i := if IsCheckbox(i) then Bool(checked) else Str(value)];
      if ShowsError(i) {
        errors := errors[i := None];
      }
    }

    /** `handleFeatureChange(index, value)`, from the line at `index`. */
    method HandleFeatureChange(index: int, value: string)
      requires 0 <= index < |keyFeatures|
      modifies this`keyFeatures
      ensures keyFeatures == old(keyFeatures)[index := value]
    {
      keyFeatures := keyFeatures[index := value];
    }

    /** `addFeature()`: one more empty line at the end. */
    method AddFeature()
      modifies this`keyFeatures
      ensures keyFeatures == old(keyFeatures) + [""]
      ensures ShowsRemoveButton() <==> |old(keyFeatures)| >= 1
    {
      keyFeatures := keyFeatures + [""];
    }

    /**
     * `removeFeature(index)`, from the remove button of line `index`; the button is
     * only rendered while there is more than one line, so one line always remains.
     */
    method RemoveFeature(index: int)
      requires ShowsRemoveButton() && 0 <= index < |keyFeatures|
      modifies this`keyFeatures
      ensures keyFeatures == WithoutIndex(old(keyFeatures), index)
      ensures |keyFeatures| == |old(keyFeatures)| - 1 >= 1
    {
      keyFeatures := WithoutIndex(keyFeatures, index);
    }

    /**
     * `validateForm()`: the name and the description must not be blank, a category
     * must be chosen, the price must be set and not `<= 0` (NaN passes), and the
     * stock must be present and not negative.  The errors object is replaced.
     */
    method ValidateForm() returns (valid: bool)
      requires Valid()
      modifies this`errors
      ensures ErrorsFor(errors, AllWhitespace(values[NameInput].s), !Truthy(values[CategoryInput]),
                        PriceRejected(values[PriceInput]), AllWhitespace(values[DescriptionInput].s),
                        StockMissingOrNegative(values[StockInput]))
      ensures Shown(errors)
      ensures valid <==> errors == map[]
    {
      var newErrors := CollectErrors(AllWhitespace(values[NameInput].s), !Truthy(values[CategoryInput]),
                                     PriceRejected(values[PriceInput]), AllWhitespace(values[DescriptionInput].s),
                                     StockMissingOrNegative(values[StockInput]));
      errors := newErrors;
      valid := |newErrors| == 0;
      assert valid <==> errors == map[] by {
        if |newErrors| == 0 {
          assert newErrors.Keys == {};
        }
      }
    }

    /**
     * `handleSubmit(e)`: a valid form yields the record for `onSave`, with the price
     * and original price parsed as floats (an empty original price becomes `null`),
     * the stock parsed as an integer and blank feature lines dropped; an invalid form
     * yields nothing.  The form data itself is left as it was, and the errors object
     * is the one `validateForm` built.
     */
    method HandleSubmit() returns (saved: Option<Saved>)
      requires Valid()
      modifies this`errors
      ensures saved.Some? <==> (!AllWhitespace(values[NameInput].s) && Truthy(values[CategoryInput])
        && !PriceRejected(values[PriceInput]) && !AllWhitespace(values[DescriptionInput].s)
        && !StockMissingOrNegative(values[StockInput]))
      ensures saved.Some? ==> saved.value.keyFeatures == CleanFeatures(keyFeatures)
      ensures saved.Some? ==> saved.value.images == images
      ensures saved.Some? ==> saved.value.values == values[PriceInput := Num(ParseFloatValue(values[PriceInput]))]
        [OriginalPriceInput := if Truthy(values[OriginalPriceInput]) then Num(ParseFloatValue(values[OriginalPriceInput])) else Null]
        [StockInput := Num(ParseIntValue(values[StockInput]))]
      ensures ErrorsFor(errors, AllWhitespace(values[NameInput].s), !Truthy(values[CategoryInput]),
                        PriceRejected(values[PriceInput]), AllWhitespace(values[DescriptionInput].s),
                        StockMissingOrNegative(values[StockInput]))
      ensures saved.Some? <==> errors == map[]
    {
      var valid := ValidateForm();
      if valid {
        var cleaned := values[PriceInput := Num(ParseFloatValue(values[PriceInput]))]
          [OriginalPriceInput := if Truthy(values[OriginalPriceInput]) then Num(ParseFloatValue(values[OriginalPriceInput])) else Null]
          [StockInput := Num(ParseIntValue(values[StockInput]))];
        saved := Some(Saved(cleaned, CleanFeatures(keyFeatures), images));
      } else {
        saved := None;
      }
    }
  }

  /**
   * Editing a product that itself satisfies every check (a name and a description
   * that are not blank, a category, a positive whole price and a whole stock of
   * zero or more) and submitting it unchanged passes every check of the form.
   */
  lemma UnchangedEditPasses(p: Product, price: int, stock: int)
    requires Prop(Some(p), "name").Str? && !AllWhitespace(Prop(Some(p), "name").s)
    requires Prop(Some(p), "description").Str? && !AllWhitespace(Prop(Some(p), "description").s)
    requires Truthy(Prop(Some(p), "category"))
    requires Prop(Some(p), "price") == Num(FromInt(price)) && price > 0
    requires Prop(Some(p), "stock") == Num(FromInt(stock)) && stock >= 0
    ensures !AllWhitespace(InitialValues(Some(p))[NameInput].s)
    ensures !AllWhitespace(InitialValues(Some(p))[DescriptionInput].s)
    ensures Truthy(InitialValues(Some(p))[CategoryInput])
    ensures !PriceRejected(InitialValues(Some(p))[PriceInput])
    ensures !StockMissingOrNegative(InitialValues(Some(p))[StockInput])
  {
    var v := InitialValues(Some(p));
    AllInputsComplete(NameInput);
    AllInputsComplete(DescriptionInput);
    AllInputsComplete(CategoryInput);
    AllInputsComplete(PriceInput);
    AllInputsComplete(StockInput);
    assert Prop(Some(p), "name") != Str("");
    assert Prop(Some(p), "description") != Str("");
    assert v[NameInput] == Prop(Some(p), "name");
    assert v[DescriptionInput] == Prop(Some(p), "description");
    assert v[PriceInput] == Num(FromInt(price));
    UnchangedStockAccepted(p, stock);
  }
}
