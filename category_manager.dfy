/**
 * The admin category screen (`components/admin/CategoryManager.jsx`): the category
 * list, the add / edit dialog with its validation, delete, and the statistics card.
 */
module CategoryAdmin {
  import opened Js
  import opened AdminLists
  import Helpers

  datatype Category = Category(id: int, name: string, description: string, productCount: int, icon: string)

  /** The dialog's fields. */
  datatype CategoryForm = CategoryForm(name: string, description: string, icon: string)

  /** The icon a new category starts with. */
  const DefaultIcon := "📦"

  const EmptyForm := CategoryForm("", "", DefaultIcon)

  /**
   * `errors` is the object `validateForm` builds for this form: a message for a
   * blank name and one for a blank description, and no other entry.
   */
  predicate ErrorsFor(errors: map<string, string>, form: CategoryForm)
  {
    errors.Keys <= {"name", "description"}
    && ("name" in errors <==> AllWhitespace(form.name))
    && ("name" in errors ==> errors["name"] == "Category name is required")
    && ("description" in errors <==> AllWhitespace(form.description))
    && ("description" in errors ==> errors["description"] == "Description is required")
  }

  /** The categories the screen starts with. */
  const InitialCategories: seq<Category> := [
    Category(1, "Robot Cleaners", "Automated cleaning robots", 12, "🧹"),
    Category(2, "Kitchen Robots", "Smart cooking assistants", 8, "👨‍🍳"),
    Category(3, "Lawn Care", "Automated lawn maintenance", 6, "🌱"),
    Category(4, "Service Robots", "Food and beverage service", 10, "🍽️"),
    Category(5, "Smart Home", "Home automation devices", 9, "🏠")]

  function HasId(id: int): Category -> bool
  {
    (c: Category) => c.id == id
  }

  function IdIsNot(id: int): Category -> bool
  {
    (c: Category) => c.id != id
  }

  /** `{ ...cat, ...formData }`: the form's three fields over the category, id and count kept. */
  function Merge(form: CategoryForm): Category -> Category
  {
    (c: Category) => c.(name := form.name, description := form.description, icon := form.icon)
  }

  /** The list after saving an edit of category `id`. */
  function SaveEdit(categories: seq<Category>, id: int, form: CategoryForm): (r: seq<Category>)
    ensures |r| == |categories|
    ensures forall k :: 0 <= k < |r| && categories[k].id == id ==>
      r[k] == Category(id, form.name, form.description, categories[k].productCount, form.icon)
    ensures forall k :: 0 <= k < |r| && categories[k].id != id ==> r[k] == categories[k]
  {
    ReplaceWhere(categories, HasId(id), Merge(form))
  }

  /** The list after adding a category: `{ id: length + 1, ...formData, productCount: 0 }` at the end. */
  function SaveNew(categories: seq<Category>, form: CategoryForm): (r: seq<Category>)
    ensures |r| == |categories| + 1 && r[..|categories|] == categories
    ensures r[|categories|] == Category(|categories| + 1, form.name, form.description, 0, form.icon)
  {
    categories + [Category(|categories| + 1, form.name, form.description, 0, form.icon)]
  }

  function CountOf(c: Category): int
  {
    c.productCount
  }

  /** "Total Products": `categories.reduce((sum, cat) => sum + cat.productCount, 0)` */
  function TotalProducts(categories: seq<Category>): int
  {
    Reduce(categories, CountOf, 0)
  }

  /** "Avg Products/Category": the total over the count, rounded half up, or 0 with no categories. */
  function AverageProducts(categories: seq<Category>): int
  {
    if |categories| > 0 then Helpers.RoundQuotient(TotalProducts(categories), |categories|) else 0
  }

  /** Adding a category adds nothing to the total product count, and editing keeps it. */
  lemma SavesKeepTotal(categories: seq<Category>, id: int, form: CategoryForm)
    ensures TotalProducts(SaveNew(categories, form)) == TotalProducts(categories)
    ensures TotalProducts(SaveEdit(categories, id, form)) == TotalProducts(categories)
  {
    ReduceIsSum(SaveNew(categories, form), CountOf, 0);
    ReduceIsSum(categories, CountOf, 0);
    SumAppend(categories, [Category(|categories| + 1, form.name, form.description, 0, form.icon)], CountOf);
    ReduceIsSum(SaveEdit(categories, id, form), CountOf, 0);
    SumOfMerged(categories, id, form);
  }

  lemma {:induction false} SumOfMerged(categories: seq<Category>, id: int, form: CategoryForm)
    ensures Sum(SaveEdit(categories, id, form), CountOf) == Sum(categories, CountOf)
  {
    if categories != [] {
      assert SaveEdit(categories, id, form)[1..] == SaveEdit(categories[1..], id, form);
      SumOfMerged(categories[1..], id, form);
    }
  }

  lemma {:induction false} SumAtMost(categories: seq<Category>, bound: int)
    requires forall c :: c in categories ==> c.productCount <= bound
    ensures Sum(categories, CountOf) <= |categories| * bound
  {
    if categories != [] {
      SumAtMost(categories[1..], bound);
    }
  }

  lemma {:induction false} SumAtLeast(categories: seq<Category>, bound: int)
    requires forall c :: c in categories ==> c.productCount >= bound
    ensures Sum(categories, CountOf) >= |categories| * bound
  {
    if categories != [] {
      SumAtLeast(categories[1..], bound);
    }
  }

  /**
   * The average lies between the smallest and the largest product count: with every
   * count in `lo..hi`, so is the rounded average.
   */
  lemma AverageWithinCounts(categories: seq<Category>, lo: int, hi: int)
    requires |categories| > 0
    requires forall c :: c in categories ==> lo <= c.productCount <= hi
    ensures lo <= AverageProducts(categories) <= hi
  {
    var n := |categories|;
    var t := TotalProducts(categories);
    var r := AverageProducts(categories);
    ReduceIsSum(categories, CountOf, 0);
    SumAtMost(categories, hi);
    SumAtLeast(categories, lo);
    assert (2 * r - 1) * n <= 2 * t < (2 * r + 1) * n;
    assert (2 * hi + 1) * n == 2 * (n * hi) + n;
    assert (2 * lo - 1) * n == 2 * (n * lo) - n;
    LessCancel(2 * r - 1, 2 * hi + 1, n);
    LessCancel(2 * lo - 1, 2 * r + 1, n);
  }

  /** Multiplying by the same count keeps a strict order only if it was there before. */
  lemma LessCancel(a: int, b: int, n: nat)
    requires a * n < b * n
    ensures a < b
  {
    if a >= b {
      MulMonotone(b, a, n);
      assert false;
    }
  }

  /** The screen opens with 45 products in 5 categories, 9 per category on average. */
  lemma InitialStatistics()
    ensures TotalProducts(InitialCategories) == 45
    ensures AverageProducts(InitialCategories) == 9
  {
    var c := InitialCategories;
    ReduceIsSum(c, CountOf, 0);
    assert c[4..][1..] == [];
    assert Sum(c[4..], CountOf) == 9;
    assert c[3..][1..] == c[4..];
    assert Sum(c[3..], CountOf) == 19;
    assert c[2..][1..] == c[3..];
    assert Sum(c[2..], CountOf) == 25;
    assert c[1..][1..] == c[2..];
    assert Sum(c[1..], CountOf) == 33;
  }

  /** Deleting keeps exactly the categories with another id, in order. */
  lemma DeleteMeaning(categories: seq<Category>, id: int)
    ensures forall c :: c in Filter(categories, IdIsNot(id)) <==> c in categories && c.id != id
    ensures IsSubsequence(Filter(categories, IdIsNot(id)), categories)
  {
    FilterIsSubsequence(categories, IdIsNot(id));
    forall c | c in categories && c.id != id
      ensures c in Filter(categories, IdIsNot(id))
    {
      var k :| 0 <= k < |categories| && categories[k] == c;
    }
  }

  class CategoryManager {
    var categories: seq<Category>
    var isModalOpen: bool
    /** `editingCategory`: the category the dialog edits, `None` when it adds one. */
    var editing: Option<Category>
    var form: CategoryForm
    var errors: map<string, string>

    constructor()
      ensures categories == InitialCategories && !isModalOpen && editing == None
      ensures form == EmptyForm && errors == map[]
    {
      categories := InitialCategories;
      isModalOpen := false;
      editing := None;
      form := EmptyForm;
      errors := map[];
    }

    /** `handleOpenModal(category)`: fills the dialog from the category, or empties it for a new one. */
    method HandleOpenModal(category: Option<Category>)
      modifies this`editing, this`form, this`isModalOpen, this`errors
      ensures editing == category && isModalOpen && errors == map[]
      ensures category.Some? ==> form == CategoryForm(category.value.name, category.value.description, category.value.icon)
      ensures category.None? ==> form == EmptyForm
    {
      if category.Some? {
        editing := category;
        form := CategoryForm(category.value.name, category.value.description, category.value.icon);
      } else {
        editing := None;
        form := EmptyForm;
      }
      isModalOpen := true;
      errors := map[];
    }

    /** `handleCloseModal()`: closes and resets the dialog. */
    method HandleCloseModal()
      modifies this`editing, this`form, this`isModalOpen, this`errors
      ensures !isModalOpen && editing == None && form == EmptyForm && errors == map[]
    {
      isModalOpen := false;
      editing := None;
      form := EmptyForm;
      errors := map[];
    }

    /** `validateForm()`: the name and the description must not be blank. */
    method ValidateForm() returns (valid: bool)
      modifies this`errors
      ensures ErrorsFor(errors, form)
      ensures valid <==> !AllWhitespace(form.name) && !AllWhitespace(form.description)
    {
      var newErrors: map<string, string> := map[];
      if AllWhitespace(form.name) {
        newErrors := newErrors["name" := "Category name is required"];
      }
      if AllWhitespace(form.description) {
        newErrors := newErrors["description" := "Description is required"];
      }
      errors := newErrors;
      valid := |newErrors| == 0;
      assert "name" in newErrors ==> |newErrors| > 0;
      assert "description" in newErrors ==> |newErrors| > 0;
      if |newErrors| == 0 {
        assert newErrors.Keys == {};
      }
    }

    /**
     * `handleSubmit(e)`: a valid dialog saves (merging into the edited category, or
     * appending a new one) and closes; an invalid one changes nothing but the errors,
     * which are then those of the submitted form.
     */
    method HandleSubmit() returns (saved: bool)
      modifies this
      ensures saved <==> !AllWhitespace(old(form).name) && !AllWhitespace(old(form).description)
      ensures saved && old(editing).Some? ==> categories == SaveEdit(old(categories), old(editing).value.id, old(form))
      ensures saved && old(editing).None? ==> categories == SaveNew(old(categories), old(form))
      ensures saved ==> !isModalOpen && editing == None && form == EmptyForm && errors == map[]
      ensures !saved ==> (categories == old(categories) && editing == old(editing) && form == old(form)
        && isModalOpen == old(isModalOpen))
      ensures ErrorsFor(errors, old(form))
    {
      saved := ValidateForm();
      if saved {
        if editing.Some? {
          categories := ReplaceWhere(categories, HasId(editing.value.id), Merge(form));
        } else {
          categories := categories + [Category(|categories| + 1, form.name, form.description, 0, form.icon)];
        }
        HandleCloseModal();
      }
    }

    /** `handleDelete(id)`, `confirmed` being the answer to the confirmation dialog. */
    method HandleDelete(id: int, confirmed: bool)
      modifies this`categories
      ensures confirmed ==> categories == Filter(old(categories), IdIsNot(id))
      ensures !confirmed ==> categories == old(categories)
    {
      if confirmed {
        categories := Filter(categories, IdIsNot(id));
      }
    }
  }
}
