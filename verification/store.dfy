/** The store page's own logic: the category filter over the product list and the stock
    line under each product (src/pages/Store.js). */
module Store {
  import opened JsValue
  import opened Text
  import opened Lists

  datatype Product = Product(id: int, name: string, category: string, stock: int)

  /** The category select's "All Categories" value. */
  const AllCategories := "all"

  /** Whether `product` passes the category filter. */
  predicate Shown(filterCategory: string, product: Product) {
    filterCategory == AllCategories || EqualsIgnoreCase(product.category, filterCategory)
  }

  /** `filteredProducts`: the products that pass the filter, in the order received. The
      `sortBy` state is never consulted, so it takes no part. */
  function FilteredProducts(products: seq<Product>, filterCategory: string): (shown: seq<Product>)
    ensures forall p :: p in shown <==> p in products && Shown(filterCategory, p)
    ensures forall p :: multiset(shown)[p] == if Shown(filterCategory, p) then multiset(products)[p] else 0
    ensures IsSubsequence(shown, products)
  {
    ShownExactly(products, filterCategory);
    Filter(products, p => Shown(filterCategory, p))
  }

  lemma ShownExactly(products: seq<Product>, filterCategory: string)
    ensures forall p :: p in Filter(products, p => Shown(filterCategory, p))
                        <==> p in products && Shown(filterCategory, p)
    ensures forall p :: multiset(Filter(products, p => Shown(filterCategory, p)))[p]
                        == if Shown(filterCategory, p) then multiset(products)[p] else 0
    ensures IsSubsequence(Filter(products, p => Shown(filterCategory, p)), products)
  {
    forall p ensures p in Filter(products, p => Shown(filterCategory, p))
                     <==> p in products && Shown(filterCategory, p) {
      FilterMember(products, p => Shown(filterCategory, p), p);
    }
    forall p ensures multiset(Filter(products, p => Shown(filterCategory, p)))[p]
                     == if Shown(filterCategory, p) then multiset(products)[p] else 0 {
      FilterCount(products, p => Shown(filterCategory, p), p);
    }
    FilterIsSubsequence(products, p => Shown(filterCategory, p));
  }

  /** With "all" every product is shown, in the order received. */
  lemma AllShowsEverything(products: seq<Product>)
    ensures FilteredProducts(products, AllCategories) == products
  {
    FilterKeepsAll(products, p => Shown(AllCategories, p));
  }

  /** With any other filter the shown products are those of the list whose category equals
      the filter ignoring ASCII case, in the order received (no sort is applied). */
  lemma CategoryFilter(products: seq<Product>, filterCategory: string, product: Product)
    requires filterCategory != AllCategories
    ensures product in FilteredProducts(products, filterCategory)
            <==> product in products && Lower(product.category) == Lower(filterCategory)
    ensures multiset(FilteredProducts(products, filterCategory))[product]
            == if Lower(product.category) == Lower(filterCategory) then multiset(products)[product] else 0
    ensures IsSubsequence(FilteredProducts(products, filterCategory), products)
  {
    FilterMember(products, p => Shown(filterCategory, p), product);
    FilterIsSubsequence(products, p => Shown(filterCategory, p));
  }

  const InStock := "In Stock"

  /** The stock line's text. */
  function StockLabel(stock: int): (line: string)
    ensures line == InStock <==> stock > 10
    ensures stock <= 10 ==> |line| >= 11 && line[..5] == "Only " && line[|line| - 5..] == " left"
  {
    if stock > 10 then InStock else "Only " + IntToString(stock) + " left"
  }

  /** The stock line's colour class. */
  function StockClass(stock: int): (cls: string)
    ensures cls == "text-success" <==> StockLabel(stock) == InStock
    ensures cls == "text-danger" <==> StockLabel(stock) != InStock
  {
    if stock > 10 then "text-success" else "text-danger"
  }

  /** For a low stock, the number between "Only " and " left" is the stock in decimal and
      reads back with `parseInt`. */
  lemma LowStockReadsBack(stock: int)
    requires stock <= 10
    ensures var line := StockLabel(stock);
            ParseInt(line[5..|line| - 5]) == Some(stock)
  {
    var n := IntToString(stock);
    var line := StockLabel(stock);
    assert line == "Only " + n + " left";
    assert line[5..|line| - 5] == n;
    ParseIntRoundTrip(stock);
  }
}
