/**
 * The seller dashboard: the seller's product list with add, edit and delete
 * through one product form, the name search, and the three stock totals.
 */
module SellerDashboard {
  import opened Common

  /** The seller page's own product record. */
  datatype SellerProduct = SellerProduct(
    id: int,
    name: string,
    price: real,
    unit: string,
    stock: int,
    image: string,
    category: string,
    description: string,
    vendor: string,
    rating: real)

  /** The product form: every field is the text typed in. */
  datatype ProductForm = ProductForm(
    name: string,
    price: string,
    unit: string,
    stock: string,
    category: string,
    description: string,
    imageUrl: string)

  /** The form as it starts and as every reset leaves it: empty, unit "kg". */
  const EMPTY_FORM := ProductForm("", "", "kg", "", "", "", "")

  const SELLER_NAME := "Frutas do João"
  const INITIAL_RATING: real := 4.5
  const PLACEHOLDER_PREFIX := "/placeholder.svg?height=200&width=200&text="

  /** Name, price and stock are required; the other fields may stay empty. */
  predicate FormComplete(f: ProductForm)
  {
    f.name != "" && f.price != "" && f.stock != ""
  }

  predicate HasProduct(products: seq<SellerProduct>, id: int)
  {
    exists i :: 0 <= i < |products| && products[i].id == id
  }

  ghost predicate UniqueProductIds(products: seq<SellerProduct>)
  {
    forall i, j :: 0 <= i < j < |products| ==> products[i].id != products[j].id
  }

  // ---------------------------------------------------------------------
  // building a product from the form
  // ---------------------------------------------------------------------

  /**
   * The product `handleAddProduct` builds. `price` and `stock` are the form's
   * price and stock text read as numbers; `id` is the creation time.
   */
  function NewProduct(form: ProductForm, id: int, price: real, stock: int): (p: SellerProduct)
    ensures p.id == id && p.name == form.name && p.unit == form.unit
    ensures p.price == price && p.stock == stock
    ensures p.category == form.category && p.description == form.description
    ensures p.vendor == SELLER_NAME && p.rating == INITIAL_RATING
    ensures form.imageUrl != "" ==> p.image == form.imageUrl
    ensures form.imageUrl == "" ==> p.image == PLACEHOLDER_PREFIX + form.name
  {
    SellerProduct(id, form.name, price, form.unit, stock,
                  if form.imageUrl != "" then form.imageUrl else PLACEHOLDER_PREFIX + form.name,
                  form.category, form.description, SELLER_NAME, INITIAL_RATING)
  }

  /**
   * The product `handleEditProduct` builds: the form's fields over the
   * selected product, keeping its id, seller and rating, and keeping its
   * picture when the picture field is empty.
   */
  function EditedProduct(selected: SellerProduct, form: ProductForm, price: real, stock: int): (p: SellerProduct)
    ensures p.id == selected.id && p.vendor == selected.vendor && p.rating == selected.rating
    ensures p.name == form.name && p.unit == form.unit && p.price == price && p.stock == stock
    ensures p.category == form.category && p.description == form.description
    ensures p.image == if form.imageUrl != "" then form.imageUrl else selected.image
  {
    selected.(name := form.name, price := price, unit := form.unit, stock := stock,
              image := if form.imageUrl != "" then form.imageUrl else selected.image,
              category := form.category, description := form.description)
  }

  /**
   * The form `startEditProduct` fills from a product. `priceText` is the
   * product's price written out as text.
   */
  function FormOf(p: SellerProduct, priceText: string): (f: ProductForm)
    ensures f.name == p.name && f.price == priceText && f.unit == p.unit
    ensures f.category == p.category && f.description == p.description && f.imageUrl == p.image
    ensures |f.stock| >= 1
    ensures p.stock >= 0 ==> DigitsValue(f.stock) == p.stock
    ensures p.stock < 0 ==> f.stock[0] == '-' && DigitsValue(f.stock[1..]) == -p.stock
  {
    ProductForm(p.name, priceText, p.unit, IntToString(p.stock), p.category, p.description, p.image)
  }

  /**
   * Editing without touching the form gives the product back: start an edit,
   * save with the numbers the form shows, and nothing changed.
   */
  lemma EditUnchangedIsIdentity(p: SellerProduct, priceText: string)
    ensures EditedProduct(p, FormOf(p, priceText), p.price, p.stock) == p
  {
  }

  // ---------------------------------------------------------------------
  // list operations
  // ---------------------------------------------------------------------

  /** `prev.map(p => p.id === id ? updated : p)`: every product with the id becomes the updated one. */
  function ReplaceProduct(products: seq<SellerProduct>, id: int, updated: SellerProduct): (r: seq<SellerProduct>)
    ensures |r| == |products|
    ensures forall i :: 0 <= i < |products| ==> r[i] == if products[i].id == id then updated else products[i]
  {
    MapWhere(products, (p: SellerProduct) => p.id == id, (p: SellerProduct) => updated)
  }

  /** `deleteProduct`: every product with the id leaves the list, all others stay. */
  function DeleteProduct(products: seq<SellerProduct>, id: int): (r: seq<SellerProduct>)
    ensures !HasProduct(r, id)
    ensures forall i :: 0 <= i < |r| ==> r[i] in products
    ensures forall i :: 0 <= i < |products| && products[i].id != id ==> products[i] in r
  {
    Filter(products, (p: SellerProduct) => p.id != id)
  }

  /** `filteredProducts`: the products whose name holds the search term, ignoring case. */
  function FilteredProducts(products: seq<SellerProduct>, term: string): (r: seq<SellerProduct>)
    ensures forall i :: 0 <= i < |r| ==> r[i] in products && MatchesTerm(r[i].name, term)
    ensures forall i :: 0 <= i < |products| && MatchesTerm(products[i].name, term) ==> products[i] in r
  {
    Filter(products, (p: SellerProduct) => MatchesTerm(p.name, term))
  }

  /** An empty search shows every product, in order. */
  lemma EmptySearchShowsAll(products: seq<SellerProduct>)
    ensures FilteredProducts(products, "") == products
  {
    FilterKeepsAll(products, (p: SellerProduct) => MatchesTerm(p.name, ""));
  }

  // ---------------------------------------------------------------------
  // totals
  // ---------------------------------------------------------------------

  function Stock(p: SellerProduct): int
  {
    p.stock
  }

  function StockValue(p: SellerProduct): real
  {
    p.price * (p.stock as real)
  }

  /** `totalStock`: the units in stock over all products. */
  function TotalStock(products: seq<SellerProduct>): (r: int)
    ensures products == [] ==> r == 0
  {
    IntSum(products, Stock)
  }

  /** `totalValue`: the value of the stock, price times units, over all products. */
  function TotalValue(products: seq<SellerProduct>): (r: real)
    ensures products == [] ==> r == 0.0
  {
    Sum(products, StockValue)
  }

  /** Stock counts and prices are never negative, so neither are the totals. */
  lemma TotalsNonNegative(products: seq<SellerProduct>)
    requires forall i :: 0 <= i < |products| ==> products[i].stock >= 0 && products[i].price >= 0.0
    ensures TotalStock(products) >= 0 && TotalValue(products) >= 0.0
  {
    assert forall x :: x in products ==> Stock(x) >= 0 && StockValue(x) >= 0.0;
    IntSumNonNegative(products, Stock);
    SumNonNegative(products, StockValue);
  }

  /** Adding a product adds one to the count and its stock and stock value to the totals. */
  lemma AddProductTotals(products: seq<SellerProduct>, p: SellerProduct)
    ensures |products + [p]| == |products| + 1
    ensures TotalStock(products + [p]) == TotalStock(products) + p.stock
    ensures TotalValue(products + [p]) == TotalValue(products) + StockValue(p)
  {
    IntSumAppend(products, [p], Stock);
    SumAppend(products, [p], StockValue);
  }

  /** With unique ids, deleting a product takes out exactly that product: count, stock and value drop by its share. */
  lemma DeleteProductTotals(products: seq<SellerProduct>, k: int)
    requires UniqueProductIds(products) && 0 <= k < |products|
    ensures var r := DeleteProduct(products, products[k].id);
            r == products[..k] + products[k + 1..] &&
            |r| == |products| - 1 &&
            TotalStock(r) == TotalStock(products) - products[k].stock &&
            TotalValue(r) == TotalValue(products) - StockValue(products[k])
  {
    var id := products[k].id;
    FilterRemovesOnlyAt(products, (p: SellerProduct) => p.id != id, k);
    IntSumRemoveAt(products, k, Stock);
    SumRemoveAt(products, k, StockValue);
  }

  /** Deleting keeps the other products in their order, each once. */
  lemma DeleteProductKeepsOrder(products: seq<SellerProduct>, id: int)
    ensures IsSubsequence(DeleteProduct(products, id), products)
  {
    FilterIsSubsequence(products, (p: SellerProduct) => p.id != id);
  }

  /** With unique ids, replacing a product changes the totals by the difference between the new and the old one. */
  lemma ReplaceProductTotals(products: seq<SellerProduct>, k: int, updated: SellerProduct)
    requires UniqueProductIds(products) && 0 <= k < |products|
    ensures var r := ReplaceProduct(products, products[k].id, updated);
            |r| == |products| &&
            TotalStock(r) == TotalStock(products) - products[k].stock + updated.stock &&
            TotalValue(r) == TotalValue(products) - StockValue(products[k]) + StockValue(updated)
  {
    var id := products[k].id;
    assert OnlyMatchAt(products, (p: SellerProduct) => p.id == id, k);
    MapWhereIntSumOne(products, (p: SellerProduct) => p.id == id, (p: SellerProduct) => updated, Stock, k);
    MapWhereSumOne(products, (p: SellerProduct) => p.id == id, (p: SellerProduct) => updated, StockValue, k);
  }

  /** Replacing a product by its edited copy changes no id, so ids stay unique. */
  lemma EditKeepsUniqueIds(products: seq<SellerProduct>, selected: SellerProduct, form: ProductForm, price: real, stock: int)
    requires UniqueProductIds(products)
    ensures UniqueProductIds(ReplaceProduct(products, selected.id, EditedProduct(selected, form, price, stock)))
  {
  }

  /** Adding a product with a new id keeps ids unique. */
  lemma AddKeepsUniqueIds(products: seq<SellerProduct>, p: SellerProduct)
    requires UniqueProductIds(products) && !HasProduct(products, p.id)
    ensures UniqueProductIds(products + [p])
  {
  }

  /** Deleting keeps ids unique. */
  lemma DeleteKeepsUniqueIds(products: seq<SellerProduct>, id: int)
    requires UniqueProductIds(products)
    ensures UniqueProductIds(DeleteProduct(products, id))
  {
    FilterKeepsPairwise(products, (p: SellerProduct) => p.id != id, (a: SellerProduct, b: SellerProduct) => a.id != b.id);
  }

  // ---------------------------------------------------------------------
  // the page state
  // ---------------------------------------------------------------------

  class Seller {
    var products: seq<SellerProduct>
    var form: ProductForm
    var selected: Option<SellerProduct>

    ghost predicate Valid()
      reads this
    {
      UniqueProductIds(products)
    }

    constructor ()
      ensures Valid()
      ensures products == [] && form == EMPTY_FORM && selected == None
    {
      products := [];
      form := EMPTY_FORM;
      selected := None;
    }

    /** The load effect: the saved list when there is one, the starting catalogue otherwise. */
    method Load(saved: Option<seq<SellerProduct>>, initialProducts: seq<SellerProduct>)
      modifies this
      ensures products == (if saved.Some? then saved.value else initialProducts)
      ensures form == old(form) && selected == old(selected)
    {
      products := if saved.Some? then saved.value else initialProducts;
    }

    /** The form inputs' change handlers. */
    method EditForm(f: ProductForm)
      modifies this
      ensures form == f && products == old(products) && selected == old(selected)
    {
      form := f;
    }

    /** `resetProductForm`. */
    method ResetProductForm()
      modifies this
      ensures form == EMPTY_FORM && products == old(products) && selected == old(selected)
    {
      form := EMPTY_FORM;
    }

    /**
     * `handleAddProduct`: with name, price and stock filled in, the new
     * product goes at the end and the form is reset; otherwise nothing
     * happens.
     */
    method HandleAddProduct(id: int, price: real, stock: int) returns (added: bool)
      modifies this
      ensures added <==> FormComplete(old(form))
      ensures added ==> products == old(products) + [NewProduct(old(form), id, price, stock)] && form == EMPTY_FORM
      ensures added ==> TotalStock(products) == old(TotalStock(products)) + stock
      ensures added && old(Valid()) && !old(HasProduct(products, id)) ==> Valid()
      ensures !added ==> products == old(products) && form == old(form)
      ensures selected == old(selected)
    {
      added := FormComplete(form);
      if added {
        var p := NewProduct(form, id, price, stock);
        AddProductTotals(products, p);
        if Valid() && !HasProduct(products, id) {
          AddKeepsUniqueIds(products, p);
        }
        products := products + [p];
        form := EMPTY_FORM;
      }
    }

    /** `startEditProduct`: the product is selected and the form shows its fields. */
    method StartEditProduct(p: SellerProduct, priceText: string)
      modifies this
      ensures selected == Some(p) && form == FormOf(p, priceText)
      ensures products == old(products)
    {
      selected := Some(p);
      form := FormOf(p, priceText);
    }

    /**
     * `handleEditProduct`: with a product selected and the required fields
     * filled in, every product with its id is replaced by the edited copy,
     * the form is reset and the selection cleared; otherwise nothing happens.
     */
    method HandleEditProduct(price: real, stock: int) returns (edited: bool)
      modifies this
      ensures edited <==> old(selected).Some? && FormComplete(old(form))
      ensures edited ==>
                products == ReplaceProduct(old(products), old(selected).value.id,
                                           EditedProduct(old(selected).value, old(form), price, stock)) &&
                form == EMPTY_FORM && selected == None
      ensures !edited ==> products == old(products) && form == old(form) && selected == old(selected)
      ensures old(Valid()) ==> Valid()
    {
      edited := selected.Some? && FormComplete(form);
      if edited {
        if Valid() {
          EditKeepsUniqueIds(products, selected.value, form, price, stock);
        }
        products := ReplaceProduct(products, selected.value.id, EditedProduct(selected.value, form, price, stock));
        form := EMPTY_FORM;
        selected := None;
      }
    }

    method Delete(id: int)
      modifies this
      ensures products == DeleteProduct(old(products), id)
      ensures form == old(form) && selected == old(selected)
      ensures old(Valid()) ==> Valid()
    {
      if Valid() {
        DeleteKeepsUniqueIds(products, id);
      }
      products := DeleteProduct(products, id);
    }
  }
}
