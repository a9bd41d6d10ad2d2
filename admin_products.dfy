/**
 * The admin products page (`pages/adminProducts.jsx`): the product list it owns,
 * the product being edited, and whether the product form dialog is open.
 */
module AdminProductsPage {
  import opened Js
  import opened AdminLists
  import ProductFormEditor

  /**
   * A product of the page's list: its id, the record the product form saved, and the
   * `sales` and `status` keys, `None` when the record has no such key.
   */
  datatype Row = Row(id: int, data: ProductFormEditor.Saved, sales: Option<int>, status: Option<string>)

  function HasId(id: int): Row -> bool
  {
    (r: Row) => r.id == id
  }

  function IdIsNot(id: int): Row -> bool
  {
    (r: Row) => r.id != id
  }

  /** `{ ...formData, id }`: the saved form under the kept id; the form has no `sales` or `status`. */
  function EditedRow(id: int, data: ProductFormEditor.Saved): Row -> Row
  {
    (r: Row) => Row(id, data, None, None)
  }

  /** The list after saving an edit of product `id`. */
  function SaveEdit(products: seq<Row>, id: int, data: ProductFormEditor.Saved): (r: seq<Row>)
    ensures |r| == |products|
    ensures forall k :: 0 <= k < |r| && products[k].id == id ==> r[k] == Row(id, data, None, None)
    ensures forall k :: 0 <= k < |r| && products[k].id != id ==> r[k] == products[k]
  {
    ReplaceWhere(products, HasId(id), EditedRow(id, data))
  }

  /** The list after saving a new product. */
  function SaveNew(products: seq<Row>, data: ProductFormEditor.Saved): (r: seq<Row>)
    ensures |r| == |products| + 1 && r[..|products|] == products
    ensures r[|products|] == Row(|products| + 1, data, Some(0), Some("active"))
  {
    products + [Row(|products| + 1, data, Some(0), Some("active"))]
  }

  /** `products.filter((p) => p.id !== id)` */
  function Delete(products: seq<Row>, id: int): seq<Row>
  {
    Filter(products, IdIsNot(id))
  }

  /** Deleting keeps exactly the rows with another id, in order. */
  lemma DeleteMeaning(products: seq<Row>, id: int)
    ensures forall r :: r in Delete(products, id) <==> r in products && r.id != id
    ensures IsSubsequence(Delete(products, id), products)
    ensures (forall r :: r in products ==> r.id != id) ==> Delete(products, id) == products
  {
    FilterIsSubsequence(products, IdIsNot(id));
    forall r | r in products && r.id != id
      ensures r in Delete(products, id)
    {
      var k :| 0 <= k < |products| && products[k] == r;
    }
    if forall r :: r in products ==> r.id != id {
      FilterAll(products, IdIsNot(id));
    }
  }

  /** Saving an edit keeps every id where it was, so the list's ids are unchanged. */
  lemma SaveEditKeepsIds(products: seq<Row>, id: int, data: ProductFormEditor.Saved)
    ensures forall k :: 0 <= k < |products| ==> SaveEdit(products, id, data)[k].id == products[k].id
  {
  }

  /** The ids run 1, 2, …, n in order: a list built only by adding. */
  predicate Numbered(products: seq<Row>)
  {
    forall k :: 0 <= k < |products| ==> products[k].id == k + 1
  }

  /** While nothing has been deleted, a new product gets an id no other product has. */
  lemma SaveNewFreshWhileNumbered(products: seq<Row>, data: ProductFormEditor.Saved)
    requires Numbered(products)
    ensures Numbered(SaveNew(products, data))
    ensures forall k :: 0 <= k < |products| ==> products[k].id != SaveNew(products, data)[|products|].id
  {
  }

  /**
   * `id = length + 1` repeats an id once a product other than the last was deleted:
   * deleting product `id` from a numbered list and adding a product leaves two
   * products with id `n`, which a later edit or delete then treats as one.
   */
  lemma SaveNewRepeatsIdAfterDelete(products: seq<Row>, id: int, data: ProductFormEditor.Saved)
    requires Numbered(products) && 1 <= id < |products|
    ensures var after := SaveNew(Delete(products, id), data);
      |after| == |products| && after[|after| - 2].id == |products| && after[|after| - 1].id == |products|
  {
    var rest := Delete(products, id);
    DeleteNumbered(products, id);
    assert rest[|rest| - 1] == products[|products| - 1];
  }

  /** In a numbered list, deleting id `k + 1` removes exactly the row at index `k`. */
  lemma DeleteNumbered(products: seq<Row>, id: int)
    requires Numbered(products) && 1 <= id <= |products|
    ensures Delete(products, id) == products[..id - 1] + products[id..]
  {
    var p := IdIsNot(id);
    forall j | 0 <= j < |products| && j != id - 1 ensures p(products[j]) {
    }
    FilterDropsOnlyAt(products, id - 1, p);
  }

  /** A filter that rejects only the element at `k` drops exactly that element. */
  lemma {:induction false} FilterDropsOnlyAt<T>(s: seq<T>, k: int, p: T -> bool)
    requires 0 <= k < |s| && !p(s[k])
    requires forall j :: 0 <= j < |s| && j != k ==> p(s[j])
    ensures Filter(s, p) == s[..k] + s[k + 1..]
  {
    var tail := s[1..];
    if k == 0 {
      assert Filter(tail, p) == tail by {
        forall x | x in tail ensures p(x) {
          var j :| 0 <= j < |tail| && tail[j] == x;
          assert tail[j] == s[j + 1];
        }
        FilterAll(tail, p);
      }
    } else {
      assert Filter(tail, p) == tail[..k - 1] + tail[k..] by {
        forall j | 0 <= j < |tail| && j != k - 1 ensures p(tail[j]) {
          assert tail[j] == s[j + 1];
        }
        FilterDropsOnlyAt(tail, k - 1, p);
      }
      assert [s[0]] + tail[..k - 1] == s[..k];
      assert tail[k..] == s[k + 1..];
    }
  }

  class AdminProducts {
    var products: seq<Row>
    /** `editingProduct`: the product the form edits, `None` when it adds one. */
    var editing: Option<Row>
    var isFormOpen: bool

    constructor()
      ensures products == [] && editing == None && !isFormOpen
    {
      products := [];
      editing := None;
      isFormOpen := false;
    }

    /** `handleEdit(product)`: remembers the product (none for "Add Product") and opens the form. */
    method HandleEdit(product: Option<Row>)
      modifies this`editing, this`isFormOpen
      ensures editing == product && isFormOpen
    {
      editing := product;
      isFormOpen := true;
    }

    /** `handleDelete(product)`, `confirmed` being the answer to the confirmation dialog. */
    method HandleDelete(product: Row, confirmed: bool)
      modifies this`products
      ensures confirmed ==> products == Delete(old(products), product.id)
      ensures !confirmed ==> products == old(products)
    {
      if confirmed {
        products := Filter(products, IdIsNot(product.id));
      }
    }

    /**
     * `handleSave(formData)`: replaces the edited product, or appends a new one with
     * the next id, 0 sales and status 'active'; then closes the form.
     */
    method HandleSave(formData: ProductFormEditor.Saved)
      modifies this
      ensures old(editing).Some? ==> products == SaveEdit(old(products), old(editing).value.id, formData)
      ensures old(editing).None? ==> products == SaveNew(old(products), formData)
      ensures !isFormOpen && editing == None
    {
      if editing.Some? {
        products := ReplaceWhere(products, HasId(editing.value.id), EditedRow(editing.value.id, formData));
      } else {
        products := products + [Row(|products| + 1, formData, Some(0), Some("active"))];
      }
      isFormOpen := false;
      editing := None;
    }

    /** `handleCancel()`: closes the form and forgets the edited product; the list is untouched. */
    method HandleCancel()
      modifies this`editing, this`isFormOpen
      ensures !isFormOpen && editing == None
    {
      isFormOpen := false;
      editing := None;
    }
  }
}
