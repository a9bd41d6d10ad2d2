/**
 * The admin product table (`components/admin/ProductTable.jsx`): search and
 * category filtering, ten rows per page, the category options, row selection and
 * the stock badge.
 */
module ProductTableView {
  import opened Js
  import opened AdminLists

  /** A product as the table reads one; `status` is '' when the product has none. */
  datatype TableRow = TableRow(id: int, name: string, category: string, priceCents: int, stock: Number, sales: int, status: string)

  const ItemsPerPage := 10

  /** The products shown when the page passes none. */
  const DefaultProducts: seq<TableRow> := [
    TableRow(1, "RoboClean Pro X1", "Robot Cleaners", 59999, FromInt(45), 234, "active"),
    TableRow(2, "ChefBot Deluxe", "Kitchen Robots", 129999, FromInt(23), 189, "active"),
    TableRow(3, "LawnMaster AI", "Lawn Care", 79999, FromInt(12), 156, "active"),
    TableRow(4, "ServeBot Elite", "Service Robots", 89999, FromInt(8), 142, "low_stock"),
    TableRow(5, "RoboClean Max", "Robot Cleaners", 69999, FromInt(0), 98, "out_of_stock")]

  /** `products.length > 0 ? products : defaultProducts` */
  function DisplayProducts(products: seq<TableRow>): (r: seq<TableRow>)
    ensures |products| > 0 ==> r == products
    ensures |products| == 0 ==> r == DefaultProducts
  {
    if |products| > 0 then products else DefaultProducts
  }

  /** The row passes the search box and the category select. */
  predicate RowMatches(search: string, category: string, p: TableRow)
  {
    IncludesIgnoringCase(p.name, search) && (category == "all" || p.category == category)
  }

  function Matching(search: string, category: string): TableRow -> bool
  {
    (p: TableRow) => RowMatches(search, category, p)
  }

  /** `filteredProducts` */
  function Filtered(display: seq<TableRow>, search: string, category: string): seq<TableRow>
  {
    Filter(display, Matching(search, category))
  }

  /**
   * The filtered rows are the displayed rows whose name contains the search,
   * ignoring case, and whose category is the selected one unless 'all' is selected,
   * in their original order.  An empty search with 'all' keeps every row.
   */
  lemma FilteredMeaning(display: seq<TableRow>, search: string, category: string)
    ensures IsSubsequence(Filtered(display, search, category), display)
    ensures forall p :: p in Filtered(display, search, category) <==>
      p in display && IncludesIgnoringCase(p.name, search) && (category == "all" || p.category == category)
    ensures search == "" && category == "all" ==> Filtered(display, search, category) == display
  {
    FilterIsSubsequence(display, Matching(search, category));
    forall p | p in display && RowMatches(search, category, p)
      ensures p in Filtered(display, search, category)
    {
      var k :| 0 <= k < |display| && display[k] == p;
    }
    if search == "" && category == "all" {
      forall p | p in display ensures Matching(search, category)(p) {
        EmptyNeedleMatches(p.name);
      }
      FilterAll(display, Matching(search, category));
    }
  }

  // ---------------------------------------------------------------------------
  // Category options: 'all', then each category once, in order of first appearance
  // ---------------------------------------------------------------------------

  predicate NoRepeats<T(==)>(s: seq<T>)
  {
    forall i, j :: 0 <= i < j < |s| ==> s[i] != s[j]
  }

  /** `[...new Set(s)]`: each element once, where it first appears. */
  function Distinct(s: seq<string>): (r: seq<string>)
    ensures forall x :: x in r <==> x in s
    ensures NoRepeats(r)
  {
    if s == [] then []
    else
      var r := Distinct(s[..|s| - 1]);
      if s[|s| - 1] in r then r else r + [s[|s| - 1]]
  }

  /** The index of the first `x` in `s`. */
  function FirstIndex<T(==)>(s: seq<T>, x: T): (k: nat)
    requires x in s
    ensures k < |s| && s[k] == x && x !in s[..k]
  {
    if s[0] == x then 0 else 1 + FirstIndex(s[1..], x)
  }

  lemma {:induction false} FirstIndexInPrefix<T>(s: seq<T>, n: nat, x: T)
    requires n <= |s| && x in s[..n]
    ensures FirstIndex(s, x) == FirstIndex(s[..n], x)
  {
    if s[0] != x {
      assert s[1..][..n - 1] == s[..n][1..];
      FirstIndexInPrefix(s[1..], n - 1, x);
    }
  }

  /** The distinct elements come in the order of their first appearance. */
  lemma {:induction false} DistinctInFirstAppearanceOrder(s: seq<string>)
    ensures forall i, j :: 0 <= i < j < |Distinct(s)| ==> FirstIndex(s, Distinct(s)[i]) < FirstIndex(s, Distinct(s)[j])
  {
    if s != [] {
      var init := s[..|s| - 1];
      var last := s[|s| - 1];
      DistinctInFirstAppearanceOrder(init);
      var r := Distinct(init);
      forall x | x in r ensures FirstIndex(s, x) == FirstIndex(init, x) {
        assert init == s[..|s| - 1];
        FirstIndexInPrefix(s, |s| - 1, x);
      }
      if last !in r {
        assert FirstIndex(s, last) == |s| - 1 by {
          assert last !in init;
        }
        forall i, j | 0 <= i < j < |Distinct(s)|
          ensures FirstIndex(s, Distinct(s)[i]) < FirstIndex(s, Distinct(s)[j])
        {
          if j < |r| {
            assert Distinct(s)[i] == r[i] && Distinct(s)[j] == r[j];
          } else {
            assert r[i] in r;
          }
        }
      }
    }
  }


  function Categories(display: seq<TableRow>): seq<string>
  {
    seq(|display|, k requires 0 <= k < |display| => display[k].category)
  }

  /** `['all', ...new Set(displayProducts.map((p) => p.category))]` */
  function CategoryOptions(display: seq<TableRow>): (r: seq<string>)
    ensures |r| >= 1 && r[0] == "all"
    ensures forall c :: c in r[1..] <==> exists p :: p in display && p.category == c
    ensures NoRepeats(r[1..])
  {
    var cs := Categories(display);
    forall c ensures c in cs <==> exists p :: p in display && p.category == c {
      if c in cs {
        var k :| 0 <= k < |cs| && cs[k] == c;
        assert display[k] in display;
      }
      if exists p :: p in display && p.category == c {
        var p :| p in display && p.category == c;
        var k :| 0 <= k < |display| && display[k] == p;
        assert cs[k] == c;
      }
    }
    ["all"] + Distinct(cs)
  }

  // ---------------------------------------------------------------------------
  // The stock badge
  // ---------------------------------------------------------------------------

  datatype StockBadge = OutOfStock | LowStock | InStock

  /** `stock === 0` */
  predicate IsZero(stock: Number)
  {
    stock.Dec? && stock.mantissa == 0
  }

  /** `getStatusBadge(status, stock)` */
  function StatusBadge(status: string, stock: Number): (r: StockBadge)
    ensures r == OutOfStock <==> IsZero(stock) || status == "out_of_stock"
    ensures r == InStock <==> !IsZero(stock) && !Less(stock, FromInt(10)) && status != "out_of_stock" && status != "low_stock"
  {
    if IsZero(stock) || status == "out_of_stock" then OutOfStock
    else if Less(stock, FromInt(10)) || status == "low_stock" then LowStock
    else InStock
  }

  /** How good a badge is: out of stock < low stock < in stock. */
  function Rank(b: StockBadge): nat
  {
    match b
    case OutOfStock => 0
    case LowStock => 1
    case InStock => 2
  }

  /** For a whole stock, less stock never shows a better badge. */
  lemma BadgeMonotone(status: string, a: int, b: int)
    requires 0 <= a <= b
    ensures Rank(StatusBadge(status, FromInt(a))) <= Rank(StatusBadge(status, FromInt(b)))
  {
  }

  /** The built-in products show three 'In Stock', one 'Low Stock' and one 'Out of Stock' badge. */
  lemma DefaultBadges()
    ensures StatusBadge(DefaultProducts[0].status, DefaultProducts[0].stock) == InStock
    ensures StatusBadge(DefaultProducts[2].status, DefaultProducts[2].stock) == InStock
    ensures StatusBadge(DefaultProducts[3].status, DefaultProducts[3].stock) == LowStock
    ensures StatusBadge(DefaultProducts[4].status, DefaultProducts[4].stock) == OutOfStock
  {
  }

  // ---------------------------------------------------------------------------
  // Selection
  // ---------------------------------------------------------------------------

  function IdIsNot(id: int): int -> bool
  {
    (x: int) => x != id
  }

  /** `handleSelectProduct(id)`: drops every copy of `id` when selected, appends it otherwise. */
  function ToggleSelected(selected: seq<int>, id: int): (r: seq<int>)
    ensures id in r <==> id !in selected
    ensures forall x :: x != id ==> (x in r <==> x in selected)
  {
    if id in selected then Filter(selected, IdIsNot(id)) else selected + [id]
  }

  /** Toggling a row that is not selected twice restores the selection exactly. */
  lemma ToggleTwiceRestores(selected: seq<int>, id: int)
    requires id !in selected
    ensures ToggleSelected(ToggleSelected(selected, id), id) == selected
  {
    FilterAppend(selected, [id], IdIsNot(id));
    FilterAll(selected, IdIsNot(id));
    assert Filter([id], IdIsNot(id)) == [];
  }

  function Ids(rows: seq<TableRow>): (r: seq<int>)
    ensures |r| == |rows| && forall k :: 0 <= k < |rows| ==> r[k] == rows[k].id
  {
    seq(|rows|, k requires 0 <= k < |rows| => rows[k].id)
  }

  class ProductTable {
    /** The `products` prop. */
    var products: seq<TableRow>
    var searchTerm: string
    var filterCategory: string
    var currentPage: int
    var selected: seq<int>

    constructor(products: seq<TableRow>)
      ensures this.products == products && searchTerm == "" && filterCategory == "all"
      ensures currentPage == 1 && selected == []
    {
      this.products := products;
      searchTerm, filterCategory := "", "all";
      currentPage := 1;
      selected := [];
    }

    function Rows(): seq<TableRow>
      reads this
    {
      Filtered(DisplayProducts(products), searchTerm, filterCategory)
    }

    /** `paginatedProducts` */
    function PageRows(): seq<TableRow>
      reads this
      requires currentPage >= 1
    {
      PageOf(Rows(), currentPage, ItemsPerPage)
    }

    /** The header checkbox is ticked: the page has rows and as many are selected. */
    predicate AllOnPageChecked()
      reads this
      requires currentPage >= 1
    {
      |PageRows()| > 0 && |selected| == |PageRows()|
    }

    /** `handleSelectAll(e)`: selects exactly the ids on the page, or nothing. */
    method HandleSelectAll(checked: bool)
      requires currentPage >= 1
      modifies this`selected
      ensures checked ==> selected == Ids(PageRows())
      ensures !checked ==> selected == []
      ensures checked && |PageRows()| > 0 ==> AllOnPageChecked()
    {
      if checked {
        selected := Ids(PageOf(Filtered(DisplayProducts(products), searchTerm, filterCategory), currentPage, ItemsPerPage));
      } else {
        selected := [];
      }
    }

    /** `handleSelectProduct(id)` */
    method HandleSelectProduct(id: int)
      modifies this`selected
      ensures selected == ToggleSelected(old(selected), id)
    {
      if id in selected {
        selected := Filter(selected, IdIsNot(id));
      } else {
        selected := selected + [id];
      }
    }
  }
}
