/**
 * The buyer dashboard: the shopping cart, checkout into the order history,
 * and the catalogue search, category filter and sort.
 */
module BuyerDashboard {
  import opened Common
  import opened ApiTypes

  /** A cart line: the product as it was first added, and how many units. */
  datatype CartItem = CartItem(product: Product, quantity: int)

  // ---------------------------------------------------------------------
  // cart lines
  // ---------------------------------------------------------------------

  predicate HasLine(cart: seq<CartItem>, id: int)
  {
    exists i :: 0 <= i < |cart| && cart[i].product.id == id
  }

  /** The cart invariant: no line is kept at quantity zero or below. */
  ghost predicate PositiveQuantities(cart: seq<CartItem>)
  {
    forall i :: 0 <= i < |cart| ==> cart[i].quantity > 0
  }

  /** The cart keeps at most one line per product id. */
  ghost predicate UniqueIds(cart: seq<CartItem>)
  {
    forall i, j :: 0 <= i < j < |cart| ==> cart[i].product.id != cart[j].product.id
  }

  function Increment(l: CartItem): CartItem
  {
    l.(quantity := l.quantity + 1)
  }

  /** One unit less, never below zero (`Math.max(0, quantity - 1)`). */
  function Decrement(l: CartItem): CartItem
  {
    l.(quantity := if l.quantity - 1 > 0 then l.quantity - 1 else 0)
  }

  /** `addToCart`: one more unit of an existing line, or a new line of one unit at the end. */
  function AddLine(cart: seq<CartItem>, p: Product): (r: seq<CartItem>)
    ensures HasLine(r, p.id)
    ensures HasLine(cart, p.id) ==>
              |r| == |cart| &&
              forall i :: 0 <= i < |cart| ==>
                r[i].product == cart[i].product &&
                r[i].quantity == cart[i].quantity + (if cart[i].product.id == p.id then 1 else 0)
    ensures !HasLine(cart, p.id) ==> r == cart + [CartItem(p, 1)]
  {
    if HasLine(cart, p.id) then MapWhere(cart, (l: CartItem) => l.product.id == p.id, Increment)
    else
      assert (cart + [CartItem(p, 1)])[|cart|].product.id == p.id;
      cart + [CartItem(p, 1)]
  }

  /** `removeFromCart`: one unit less of the line, dropping lines that reach zero. */
  function RemoveOne(cart: seq<CartItem>, id: int): (r: seq<CartItem>)
    ensures PositiveQuantities(r)
    ensures |r| <= |cart|
  {
    Filter(MapWhere(cart, (l: CartItem) => l.product.id == id, Decrement), (l: CartItem) => l.quantity > 0)
  }

  /** `removeProductFromCart`: drop the line whatever its quantity. */
  function RemoveLine(cart: seq<CartItem>, id: int): (r: seq<CartItem>)
    ensures !HasLine(r, id)
    ensures forall i :: 0 <= i < |cart| && cart[i].product.id != id ==> cart[i] in r
    ensures forall i :: 0 <= i < |r| ==> r[i] in cart
  {
    Filter(cart, (l: CartItem) => l.product.id != id)
  }

  function LineSubtotal(l: CartItem): real
  {
    l.product.price * l.quantity as real
  }

  function LineQuantity(l: CartItem): int
  {
    l.quantity
  }

  /** `getCartTotal`: the sum of price times quantity over the lines. */
  function CartTotal(cart: seq<CartItem>): (r: real)
    ensures cart == [] ==> r == 0.0
  {
    Sum(cart, LineSubtotal)
  }

  /** With non-negative prices and quantities the total is never negative. */
  lemma CartTotalNonNegative(cart: seq<CartItem>)
    requires forall i :: 0 <= i < |cart| ==> cart[i].product.price >= 0.0 && cart[i].quantity >= 0
    ensures CartTotal(cart) >= 0.0
  {
    forall l | l in cart ensures LineSubtotal(l) >= 0.0 {
      var i :| 0 <= i < |cart| && cart[i] == l;
    }
    SumNonNegative(cart, LineSubtotal);
  }

  /** `getCartItemCount`: the sum of the quantities (the badge), not the number of lines. */
  function ItemCount(cart: seq<CartItem>): (r: int)
    ensures cart == [] ==> r == 0
  {
    IntSum(cart, LineQuantity)
  }

  /** The badge counts units: with the cart invariant it is at least the number of lines. */
  lemma {:induction false} ItemCountAtLeastLines(cart: seq<CartItem>)
    requires PositiveQuantities(cart)
    ensures ItemCount(cart) >= |cart|
  {
    if cart != [] {
      ItemCountAtLeastLines(cart[1..]);
    }
  }

  /** Index of the line carrying `id`, when there is one. */
  function LineIndex(cart: seq<CartItem>, id: int): (k: int)
    requires HasLine(cart, id)
    ensures 0 <= k < |cart| && cart[k].product.id == id
    ensures forall i :: 0 <= i < k ==> cart[i].product.id != id
  {
    if cart[0].product.id == id then 0
    else
      assert HasLine(cart[1..], id) by {
        var i :| 0 <= i < |cart| && cart[i].product.id == id;
        assert cart[1..][i - 1].product.id == id;
      }
      1 + LineIndex(cart[1..], id)
  }

  /** With unique ids, the line at `LineIndex` is the only one carrying `id`. */
  lemma OnlyLineAt(cart: seq<CartItem>, id: int)
    requires UniqueIds(cart) && HasLine(cart, id)
    ensures OnlyMatchAt(cart, (l: CartItem) => l.product.id == id, LineIndex(cart, id))
  {
  }

  // ---------------------------------------------------------------------
  // properties of the cart operations
  // ---------------------------------------------------------------------

  /** Adding keeps every line positive and keeps one line per id. */
  lemma AddLinePreservesInvariant(cart: seq<CartItem>, p: Product)
    requires PositiveQuantities(cart) && UniqueIds(cart)
    ensures PositiveQuantities(AddLine(cart, p)) && UniqueIds(AddLine(cart, p))
  {
  }

  /** Removing one unit of an absent product changes nothing. */
  lemma RemoveOneAbsent(cart: seq<CartItem>, id: int)
    requires PositiveQuantities(cart) && !HasLine(cart, id)
    ensures RemoveOne(cart, id) == cart
  {
    var m := MapWhere(cart, (l: CartItem) => l.product.id == id, Decrement);
    assert m == cart;
    FilterKeepsAll(m, (l: CartItem) => l.quantity > 0);
  }

  /**
   * Removing one unit of a present product decrements its line, and drops
   * the line (keeping the others in order) when its quantity was 1.
   */
  lemma RemoveOnePresent(cart: seq<CartItem>, id: int)
    requires PositiveQuantities(cart) && UniqueIds(cart) && HasLine(cart, id)
    ensures var k := LineIndex(cart, id);
            RemoveOne(cart, id) ==
              if cart[k].quantity > 1 then cart[k := cart[k].(quantity := cart[k].quantity - 1)]
              else cart[..k] + cart[k + 1..]
  {
    var k := LineIndex(cart, id);
    var keep := (l: CartItem) => l.quantity > 0;
    var m := MapWhere(cart, (l: CartItem) => l.product.id == id, Decrement);
    DecrementOnlyAt(cart, id);
    assert m == cart[k := Decrement(cart[k])];
    if cart[k].quantity > 1 {
      assert Decrement(cart[k]) == cart[k].(quantity := cart[k].quantity - 1);
      assert forall x :: x in m ==> keep(x) by {
        forall x | x in m ensures keep(x) {
          var i :| 0 <= i < |m| && m[i] == x;
        }
      }
      FilterKeepsAll(m, keep);
    } else {
      assert forall i :: 0 <= i < |m| ==> (keep(m[i]) <==> i != k);
      FilterRemovesOnlyAt(m, keep, k);
      assert m[..k] == cart[..k] && m[k + 1..] == cart[k + 1..];
    }
  }

  /** With one line per id, decrementing by id touches the found line alone. */
  lemma DecrementOnlyAt(cart: seq<CartItem>, id: int)
    requires UniqueIds(cart) && HasLine(cart, id)
    ensures var k := LineIndex(cart, id);
            MapWhere(cart, (l: CartItem) => l.product.id == id, Decrement) == cart[k := Decrement(cart[k])]
  {
  }

  /** Dropping the line at index `k` keeps the cart invariant. */
  lemma RemoveAtPreservesInvariant(cart: seq<CartItem>, k: int)
    requires PositiveQuantities(cart) && UniqueIds(cart) && 0 <= k < |cart|
    ensures PositiveQuantities(cart[..k] + cart[k + 1..]) && UniqueIds(cart[..k] + cart[k + 1..])
  {
    var r := cart[..k] + cart[k + 1..];
    forall i | 0 <= i < |r| ensures r[i] == cart[if i < k then i else i + 1] {
    }
  }

  /** Changing quantities only, line by line, keeps one line per id. */
  lemma SameProductsKeepUnique(a: seq<CartItem>, b: seq<CartItem>)
    requires UniqueIds(a) && |a| == |b|
    requires forall i :: 0 <= i < |a| ==> a[i].product == b[i].product
    ensures UniqueIds(b)
  {
  }

  /** Removing one unit keeps one line per id. */
  lemma RemoveOnePreservesInvariant(cart: seq<CartItem>, id: int)
    requires PositiveQuantities(cart) && UniqueIds(cart)
    ensures UniqueIds(RemoveOne(cart, id))
  {
    if HasLine(cart, id) {
      RemoveOnePresent(cart, id);
      var k := LineIndex(cart, id);
      if cart[k].quantity <= 1 {
        RemoveAtPreservesInvariant(cart, k);
      } else {
        SameProductsKeepUnique(cart, cart[k := cart[k].(quantity := cart[k].quantity - 1)]);
      }
    } else {
      RemoveOneAbsent(cart, id);
    }
  }

  /** Dropping a whole line removes just that line and keeps the cart invariant. */
  lemma RemoveLinePresent(cart: seq<CartItem>, id: int)
    requires PositiveQuantities(cart) && UniqueIds(cart) && HasLine(cart, id)
    ensures var k := LineIndex(cart, id); RemoveLine(cart, id) == cart[..k] + cart[k + 1..]
  {
    FilterRemovesOnlyAt(cart, (l: CartItem) => l.product.id != id, LineIndex(cart, id));
  }

  lemma RemoveLinePreservesInvariant(cart: seq<CartItem>, id: int)
    requires PositiveQuantities(cart) && UniqueIds(cart)
    ensures PositiveQuantities(RemoveLine(cart, id)) && UniqueIds(RemoveLine(cart, id))
  {
    if HasLine(cart, id) {
      RemoveLinePresent(cart, id);
      RemoveAtPreservesInvariant(cart, LineIndex(cart, id));
    } else {
      FilterKeepsAll(cart, (l: CartItem) => l.product.id != id);
    }
  }

  /** Adding a product and then removing one unit of it restores the cart, whether or not it was there. */
  lemma AddThenRemoveRestores(cart: seq<CartItem>, p: Product)
    requires PositiveQuantities(cart)
    ensures RemoveOne(AddLine(cart, p), p.id) == cart
  {
    var matches := (l: CartItem) => l.product.id == p.id;
    var keep := (l: CartItem) => l.quantity > 0;
    var a := AddLine(cart, p);
    var m := MapWhere(a, matches, Decrement);
    if HasLine(cart, p.id) {
      assert m == cart;
      FilterKeepsAll(cart, keep);
    } else {
      assert forall i :: 0 <= i < |cart| ==> !matches(cart[i]);
      assert m == cart + [CartItem(p, 0)];
      FilterAppend(cart, [CartItem(p, 0)], keep);
      FilterKeepsAll(cart, keep);
      assert Filter([CartItem(p, 0)], keep) == [];
    }
  }

  /** Adding a product raises the badge by exactly one. */
  lemma AddLineItemCount(cart: seq<CartItem>, p: Product)
    requires UniqueIds(cart)
    ensures ItemCount(AddLine(cart, p)) == ItemCount(cart) + 1
  {
    if HasLine(cart, p.id) {
      OnlyLineAt(cart, p.id);
      MapWhereIntSumOne(cart, (l: CartItem) => l.product.id == p.id, Increment, LineQuantity, LineIndex(cart, p.id));
    } else {
      IntSumAppend(cart, [CartItem(p, 1)], LineQuantity);
    }
  }

  /** Removing one unit lowers the badge by one when the product is in the cart, and by nothing otherwise. */
  lemma RemoveOneItemCount(cart: seq<CartItem>, id: int)
    requires PositiveQuantities(cart) && UniqueIds(cart)
    ensures ItemCount(RemoveOne(cart, id)) == ItemCount(cart) - (if HasLine(cart, id) then 1 else 0)
  {
    if HasLine(cart, id) {
      var matches := (l: CartItem) => l.product.id == id;
      var k := LineIndex(cart, id);
      OnlyLineAt(cart, id);
      var m := MapWhere(cart, matches, Decrement);
      MapWhereIntSumOne(cart, matches, Decrement, LineQuantity, k);
      forall l | l in m && !(l.quantity > 0) ensures LineQuantity(l) == 0 {
        var i :| 0 <= i < |m| && m[i] == l;
      }
      IntSumFilterZero(m, (l: CartItem) => l.quantity > 0, LineQuantity);
    } else {
      RemoveOneAbsent(cart, id);
    }
  }

  /** Removing one unit lowers the total by the line's unit price when the product is in the cart, and by nothing otherwise. */
  lemma RemoveOneTotal(cart: seq<CartItem>, id: int)
    requires PositiveQuantities(cart) && UniqueIds(cart)
    ensures CartTotal(RemoveOne(cart, id)) ==
              CartTotal(cart) - (if HasLine(cart, id) then cart[LineIndex(cart, id)].product.price else 0.0)
  {
    if HasLine(cart, id) {
      var matches := (l: CartItem) => l.product.id == id;
      var k := LineIndex(cart, id);
      OnlyLineAt(cart, id);
      var m := MapWhere(cart, matches, Decrement);
      MapWhereSumOne(cart, matches, Decrement, LineSubtotal, k);
      DecrementSubtotal(cart[k]);
      assert forall i :: 0 <= i < |m| ==> m[i].quantity >= 0;
      EmptiedLinesCostNothing(m);
    } else {
      RemoveOneAbsent(cart, id);
    }
  }

  /** Lines emptied to zero cost nothing, so dropping them leaves the total. */
  lemma EmptiedLinesCostNothing(m: seq<CartItem>)
    requires forall i :: 0 <= i < |m| ==> m[i].quantity >= 0
    ensures Sum(Filter(m, (l: CartItem) => l.quantity > 0), LineSubtotal) == Sum(m, LineSubtotal)
  {
    forall l | l in m && !(l.quantity > 0) ensures LineSubtotal(l) == 0.0 {
      var i :| 0 <= i < |m| && m[i] == l;
      assert l.quantity as real == 0.0;
    }
    SumFilterZero(m, (l: CartItem) => l.quantity > 0, LineSubtotal);
  }

  /** One unit less of a line of at least one unit costs one unit price less. */
  lemma DecrementSubtotal(l: CartItem)
    requires l.quantity >= 1
    ensures LineSubtotal(Decrement(l)) == LineSubtotal(l) - l.product.price
  {
    assert (l.quantity - 1) as real == l.quantity as real - 1.0;
  }

  /** Dropping a line lowers the total by that line's subtotal, and by nothing when the product is not in the cart. */
  lemma RemoveLineTotal(cart: seq<CartItem>, id: int)
    requires UniqueIds(cart)
    ensures CartTotal(RemoveLine(cart, id)) ==
              CartTotal(cart) - (if HasLine(cart, id) then LineSubtotal(cart[LineIndex(cart, id)]) else 0.0)
  {
    if HasLine(cart, id) {
      var k := LineIndex(cart, id);
      OnlyLineAt(cart, id);
      assert forall i :: 0 <= i < |cart| ==> (cart[i].product.id != id <==> i != k);
      FilterRemovesOnlyAt(cart, (l: CartItem) => l.product.id != id, k);
      SumRemoveAt(cart, k, LineSubtotal);
    } else {
      FilterKeepsAll(cart, (l: CartItem) => l.product.id != id);
    }
  }

  /** The unit price the cart charges for one more unit of `p`: the stored line's price, or `p`'s own. */
  function AddedPrice(cart: seq<CartItem>, p: Product): real
  {
    if cart == [] then p.price
    else if cart[0].product.id == p.id then cart[0].product.price
    else AddedPrice(cart[1..], p)
  }

  lemma {:induction false} AddedPriceAt(cart: seq<CartItem>, p: Product)
    requires HasLine(cart, p.id)
    ensures AddedPrice(cart, p) == cart[LineIndex(cart, p.id)].product.price
  {
    if cart[0].product.id != p.id {
      assert HasLine(cart[1..], p.id) by {
        var i :| 0 <= i < |cart| && cart[i].product.id == p.id;
        assert cart[1..][i - 1].product.id == p.id;
      }
      AddedPriceAt(cart[1..], p);
    }
  }

  lemma {:induction false} AddedPriceAbsent(cart: seq<CartItem>, p: Product)
    requires !HasLine(cart, p.id)
    ensures AddedPrice(cart, p) == p.price
  {
    if cart != [] {
      assert forall i :: 0 <= i < |cart[1..]| ==> cart[1..][i] == cart[i + 1];
      assert !HasLine(cart[1..], p.id);
      AddedPriceAbsent(cart[1..], p);
    }
  }

  /** Adding a product raises the total by one unit price. */
  lemma AddLineTotal(cart: seq<CartItem>, p: Product)
    requires UniqueIds(cart)
    ensures CartTotal(AddLine(cart, p)) == CartTotal(cart) + AddedPrice(cart, p)
  {
    if HasLine(cart, p.id) {
      var k := LineIndex(cart, p.id);
      OnlyLineAt(cart, p.id);
      AddedPriceAt(cart, p);
      MapWhereSumOne(cart, (l: CartItem) => l.product.id == p.id, Increment, LineSubtotal, k);
      IncrementSubtotal(cart[k]);
    } else {
      AddedPriceAbsent(cart, p);
      SumAppend(cart, [CartItem(p, 1)], LineSubtotal);
    }
  }

  /** One more unit of a line costs one more unit price. */
  lemma IncrementSubtotal(l: CartItem)
    ensures LineSubtotal(Increment(l)) == LineSubtotal(l) + l.product.price
  {
    assert (l.quantity + 1) as real == l.quantity as real + 1.0;
  }

  /** Adding another product does not change the price charged for `q`. */
  lemma AddedPriceAfterOtherAdd(cart: seq<CartItem>, p: Product, q: Product)
    requires p.id != q.id
    ensures AddedPrice(AddLine(cart, p), q) == AddedPrice(cart, q)
  {
    var a := AddLine(cart, p);
    if HasLine(cart, q.id) {
      AddedPriceAt(cart, q);
      assert HasLine(a, q.id) by {
        var k := LineIndex(cart, q.id);
        assert a[k].product.id == q.id;
      }
      AddedPriceAt(a, q);
      var k := LineIndex(cart, q.id);
      var k' := LineIndex(a, q.id);
      assert a[k].product.id == q.id;
      assert k' <= k;
      assert a[k'].product == cart[k'].product;
    } else {
      AddedPriceAbsent(cart, q);
      if HasLine(cart, p.id) {
        assert forall i :: 0 <= i < |a| ==> a[i].product == cart[i].product;
      } else {
        assert forall i :: 0 <= i < |cart| ==> a[i] == cart[i];
        assert a[|cart|].product.id == p.id;
      }
      assert !HasLine(a, q.id);
      AddedPriceAbsent(a, q);
    }
  }

  /** The total does not depend on the order in which two products are added. */
  lemma AddOrderIrrelevantForTotal(cart: seq<CartItem>, p: Product, q: Product)
    requires UniqueIds(cart)
    requires p.id != q.id || p == q
    ensures CartTotal(AddLine(AddLine(cart, p), q)) == CartTotal(AddLine(AddLine(cart, q), p))
  {
    if p != q {
      AddLinePreservesUniqueIds(cart, p);
      AddLinePreservesUniqueIds(cart, q);
      AddLineTotal(cart, p);
      AddLineTotal(cart, q);
      AddLineTotal(AddLine(cart, p), q);
      AddLineTotal(AddLine(cart, q), p);
      AddedPriceAfterOtherAdd(cart, p, q);
      AddedPriceAfterOtherAdd(cart, q, p);
    }
  }

  lemma AddLinePreservesUniqueIds(cart: seq<CartItem>, p: Product)
    requires UniqueIds(cart)
    ensures UniqueIds(AddLine(cart, p))
  {
  }

  // ---------------------------------------------------------------------
  // checkout
  // ---------------------------------------------------------------------

  function ToOrderItem(l: CartItem): OrderItem
  {
    OrderItem(l.product.id, l.quantity, Some(l.product))
  }

  /** One order item per cart line, in cart order. */
  function ToOrderItems(cart: seq<CartItem>): (r: seq<OrderItem>)
    ensures |r| == |cart|
    ensures forall i :: 0 <= i < |cart| ==>
              r[i].produtoId == cart[i].product.id && r[i].quantidade == cart[i].quantity &&
              r[i].produto == Some(cart[i].product)
  {
    if cart == [] then [] else [ToOrderItem(cart[0])] + ToOrderItems(cart[1..])
  }

  /** The subtotal of an order item, recomputed from its product snapshot. */
  function ItemSubtotal(it: OrderItem): real
  {
    match it.produto
    case Some(p) => p.price * it.quantidade as real
    case None => 0.0
  }

  /** The total of an order recomputed from its items. */
  function ItemsTotal(itens: seq<OrderItem>): real
  {
    Sum(itens, ItemSubtotal)
  }

  /** Recomputing the total from the snapshot items reproduces the cart total. */
  lemma {:induction false} ItemsTotalMatchesCart(cart: seq<CartItem>)
    ensures ItemsTotal(ToOrderItems(cart)) == CartTotal(cart)
  {
    if cart != [] {
      ItemsTotalMatchesCart(cart[1..]);
      assert ToOrderItems(cart)[1..] == ToOrderItems(cart[1..]);
    }
  }

  const PREPARING := "Preparando"
  const BUYER_USER_ID := 1

  /** The order `handleCheckout` builds from the cart and the selected address. */
  function MakeOrder(cart: seq<CartItem>, address: Address, orderId: int, createdAt: string): (o: Order)
    ensures o.id == orderId && o.userId == BUYER_USER_ID && o.enderecoId == address.id
    ensures o.status == PREPARING && o.createdAt == createdAt
    ensures o.itens == ToOrderItems(cart)
    ensures o.total == CartTotal(cart)
  {
    Order(orderId, BUYER_USER_ID, address.id, ToOrderItems(cart), CartTotal(cart), PREPARING, createdAt)
  }

  /** A placed order's stored total equals the total recomputed from its items. */
  lemma OrderTotalRoundTrip(cart: seq<CartItem>, address: Address, orderId: int, createdAt: string)
    ensures ItemsTotal(MakeOrder(cart, address, orderId, createdAt).itens)
         == MakeOrder(cart, address, orderId, createdAt).total
  {
    ItemsTotalMatchesCart(cart);
  }

  // ---------------------------------------------------------------------
  // catalogue search, category filter and sort
  // ---------------------------------------------------------------------

  const ALL_CATEGORIES := "todos"

  predicate MatchesCatalog(p: Product, term: string, category: string)
  {
    (MatchesTerm(p.name, term) || MatchesTerm(p.category, term)) &&
    (category == ALL_CATEGORIES || p.category == category)
  }

  /** `filteredProducts`: search term in name or category, and the chosen category. */
  function FilteredProducts(products: seq<Product>, term: string, category: string): (r: seq<Product>)
    ensures forall i :: 0 <= i < |r| ==> r[i] in products && MatchesCatalog(r[i], term, category)
    ensures forall i :: 0 <= i < |products| && MatchesCatalog(products[i], term, category) ==> products[i] in r
  {
    Filter(products, (p: Product) => MatchesCatalog(p, term, category))
  }

  /** With no search term and every category, the whole catalogue is shown in its order. */
  lemma FilteredProductsShowsAll(products: seq<Product>)
    ensures FilteredProducts(products, "", ALL_CATEGORIES) == products
  {
    forall p | p in products ensures MatchesCatalog(p, "", ALL_CATEGORIES) {
      ContainsEmpty(Lower(p.name));
    }
    FilterKeepsAll(products, (p: Product) => MatchesCatalog(p, "", ALL_CATEGORIES));
  }

  /**
   * The ascending sort key of each `sortBy` choice. `collationKey` stands
   * for the locale comparison of names; unknown choices compare equal.
   */
  function SortKey(sortBy: string, collationKey: string -> real, p: Product): real
  {
    match sortBy
    case "preco-menor" => p.price
    case "preco-maior" => -p.price
    case "avaliacao" => -p.rating
    case "nome" => collationKey(p.name)
    case _ => 0.0
  }

  ghost predicate SortedBy(s: seq<Product>, key: Product -> real)
  {
    forall i, j :: 0 <= i < j < |s| ==> key(s[i]) <= key(s[j])
  }

  /** An element no larger than the head of a sorted list can go in front of it. */
  lemma PrependSorted(y: Product, rest: seq<Product>, key: Product -> real)
    requires SortedBy(rest, key) && (rest == [] || key(y) <= key(rest[0]))
    ensures SortedBy([y] + rest, key)
  {
    var r := [y] + rest;
    forall i, j | 0 <= i < j < |r| ensures key(r[i]) <= key(r[j]) {
      assert r[j] == rest[j - 1];
      if i > 0 {
        assert r[i] == rest[i - 1];
      }
    }
  }

  /** Insert `x` before the first element whose key is not smaller (so earlier elements stay first among equals). */
  function InsertByKey(x: Product, s: seq<Product>, key: Product -> real): (r: seq<Product>)
    requires SortedBy(s, key)
    ensures |r| == |s| + 1
    ensures r[0] == x || (|s| > 0 && r[0] == s[0])
    ensures SortedBy(r, key)
    ensures multiset(r) == multiset(s) + multiset{x}
  {
    if s == [] || key(x) <= key(s[0]) then
      PrependSorted(x, s, key);
      [x] + s
    else
      var rest := InsertByKey(x, s[1..], key);
      InsertBehind(x, s, rest, key);
      [s[0]] + rest
  }

  /** The step of the insertion past a smaller head: the head stays in front of the insertion into the tail. */
  lemma InsertBehind(x: Product, s: seq<Product>, rest: seq<Product>, key: Product -> real)
    requires s != [] && SortedBy(s, key) && key(s[0]) < key(x)
    requires SortedBy(rest, key) && |rest| >= 1 && (rest[0] == x || (|s| > 1 && rest[0] == s[1]))
    requires multiset(rest) == multiset(s[1..]) + multiset{x}
    ensures SortedBy([s[0]] + rest, key)
    ensures multiset([s[0]] + rest) == multiset(s) + multiset{x}
  {
    PrependSorted(s[0], rest, key);
    assert s == [s[0]] + s[1..];
  }

  /** A stable sort by `key` (insertion sort). */
  function SortByKey(s: seq<Product>, key: Product -> real): (r: seq<Product>)
    ensures SortedBy(r, key)
    ensures multiset(r) == multiset(s)
  {
    if s == [] then []
    else
      assert s == [s[0]] + s[1..];
      InsertByKey(s[0], SortByKey(s[1..], key), key)
  }

  /** `sortedProducts`: a sorted permutation of the filtered catalogue. */
  function SortedProducts(filtered: seq<Product>, sortBy: string, collationKey: string -> real): (r: seq<Product>)
    ensures multiset(r) == multiset(filtered)
    ensures forall i, j :: 0 <= i < j < |r| ==> SortKey(sortBy, collationKey, r[i]) <= SortKey(sortBy, collationKey, r[j])
  {
    SortByKey(filtered, (p: Product) => SortKey(sortBy, collationKey, p))
  }

  /** The default "relevancia" choice compares everything equal, so the stable sort keeps the filtered order. */
  lemma SortedProductsDefaultKeepsOrder(filtered: seq<Product>, collationKey: string -> real)
    ensures SortedProducts(filtered, "relevancia", collationKey) == filtered
  {
    var key := (p: Product) => SortKey("relevancia", collationKey, p);
    forall p ensures key(p) == 0.0 {
      assert SortKey("relevancia", collationKey, p) == 0.0;
    }
    SortByKeyConstant(filtered, key, 0.0);
  }

  /** A key that compares everything equal leaves the order as it is. */
  lemma {:induction false} SortByKeyConstant(s: seq<Product>, key: Product -> real, c: real)
    requires forall p :: key(p) == c
    ensures SortByKey(s, key) == s
  {
    if s != [] {
      SortByKeyConstant(s[1..], key, c);
      assert [s[0]] + s[1..] == s;
    }
  }

  /** The products whose sort key is `c`: one class of ties. */
  function KeyIs(key: Product -> real, c: real): Product -> bool
  {
    (p: Product) => key(p) == c
  }

  /** Inserting adds `x` to its class of ties ahead of the class's earlier members and leaves every other class alone. */
  lemma {:induction false} InsertKeepsClass(x: Product, t: seq<Product>, key: Product -> real, c: real)
    requires SortedBy(t, key)
    ensures Filter(InsertByKey(x, t, key), KeyIs(key, c)) == (if key(x) == c then [x] else []) + Filter(t, KeyIs(key, c))
  {
    var tie := KeyIs(key, c);
    if t == [] || key(x) <= key(t[0]) {
      FilterPrepend(x, t, tie);
    } else {
      var rest := InsertByKey(x, t[1..], key);
      InsertKeepsClass(x, t[1..], key, c);
      FilterPrepend(t[0], rest, tie);
      assert t == [t[0]] + t[1..];
      FilterPrepend(t[0], t[1..], tie);
      SwapWhenOneEmpty(if tie(t[0]) then [t[0]] else [], if tie(x) then [x] else [], Filter(t[1..], tie));
    }
  }

  /** Two blocks of which one is empty can be put in either order. */
  lemma SwapWhenOneEmpty(a: seq<Product>, b: seq<Product>, f: seq<Product>)
    requires a == [] || b == []
    ensures a + (b + f) == b + (a + f)
  {
  }

  /** The sort is stable: within each class of ties the order of the input is kept. */
  lemma {:induction false} SortByKeyStable(s: seq<Product>, key: Product -> real, c: real)
    ensures Filter(SortByKey(s, key), KeyIs(key, c)) == Filter(s, KeyIs(key, c))
  {
    if s != [] {
      SortByKeyStable(s[1..], key, c);
      InsertKeepsClass(s[0], SortByKey(s[1..], key), key, c);
      FilterCons(s, KeyIs(key, c));
    }
  }

  /** Products that compare equal under the chosen sort keep their filtered order. */
  lemma SortedProductsStable(filtered: seq<Product>, sortBy: string, collationKey: string -> real, c: real)
    ensures var key := (p: Product) => SortKey(sortBy, collationKey, p);
            Filter(SortedProducts(filtered, sortBy, collationKey), KeyIs(key, c)) == Filter(filtered, KeyIs(key, c))
  {
    SortByKeyStable(filtered, (p: Product) => SortKey(sortBy, collationKey, p), c);
  }

  // ---------------------------------------------------------------------
  // the dashboard state
  // ---------------------------------------------------------------------

  class Dashboard {
    var cart: seq<CartItem>
    var orders: seq<Order>
    var selectedAddress: Option<Address>

    ghost predicate Valid()
      reads this
    {
      PositiveQuantities(cart) && UniqueIds(cart)
    }

    /** The page starts with an empty cart, no orders and no address. */
    constructor ()
      ensures Valid()
      ensures cart == [] && orders == [] && selectedAddress == None
    {
      cart := [];
      orders := [];
      selectedAddress := None;
    }

    /** The address manager's selection callback. */
    method SelectAddress(a: Option<Address>)
      modifies this
      ensures selectedAddress == a
      ensures cart == old(cart) && orders == old(orders)
    {
      selectedAddress := a;
    }

    method AddToCart(p: Product)
      requires Valid()
      modifies this
      ensures Valid()
      ensures cart == AddLine(old(cart), p)
      ensures ItemCount(cart) == old(ItemCount(cart)) + 1
      ensures orders == old(orders) && selectedAddress == old(selectedAddress)
    {
      AddLinePreservesInvariant(cart, p);
      AddLineItemCount(cart, p);
      cart := AddLine(cart, p);
    }

    method RemoveFromCart(id: int)
      requires Valid()
      modifies this
      ensures Valid()
      ensures cart == RemoveOne(old(cart), id)
      ensures ItemCount(cart) == old(ItemCount(cart)) - (if old(HasLine(cart, id)) then 1 else 0)
      ensures CartTotal(cart) ==
                old(CartTotal(cart)) - (if old(HasLine(cart, id)) then old(cart[LineIndex(cart, id)].product.price) else 0.0)
      ensures orders == old(orders) && selectedAddress == old(selectedAddress)
    {
      RemoveOnePreservesInvariant(cart, id);
      RemoveOneItemCount(cart, id);
      RemoveOneTotal(cart, id);
      cart := RemoveOne(cart, id);
    }

    method RemoveProductFromCart(id: int)
      requires Valid()
      modifies this
      ensures Valid()
      ensures cart == RemoveLine(old(cart), id)
      ensures CartTotal(cart) ==
                old(CartTotal(cart)) - (if old(HasLine(cart, id)) then old(LineSubtotal(cart[LineIndex(cart, id)])) else 0.0)
      ensures orders == old(orders) && selectedAddress == old(selectedAddress)
    {
      RemoveLinePreservesInvariant(cart, id);
      RemoveLineTotal(cart, id);
      cart := RemoveLine(cart, id);
    }

    method ClearCart()
      modifies this
      ensures Valid()
      ensures cart == []
      ensures orders == old(orders) && selectedAddress == old(selectedAddress)
    {
      cart := [];
    }

    /**
     * `handleCheckout`: with an address selected and a non-empty cart, the
     * cart becomes an order at the head of the history and the cart is
     * emptied; otherwise nothing changes. `orderId` and `createdAt` stand for
     * the clock readings the page takes.
     */
    method Checkout(orderId: int, createdAt: string) returns (placed: bool)
      requires Valid()
      modifies this
      ensures Valid()
      ensures placed <==> old(selectedAddress).Some? && old(cart) != []
      ensures !placed ==> cart == old(cart) && orders == old(orders)
      ensures placed ==>
                cart == [] &&
                orders == [MakeOrder(old(cart), old(selectedAddress).value, orderId, createdAt)] + old(orders) &&
                orders[0].total == old(CartTotal(cart)) &&
                ItemsTotal(orders[0].itens) == orders[0].total
      ensures selectedAddress == old(selectedAddress)
    {
      if selectedAddress.None? || |cart| == 0 {
        return false;
      }
      var order := MakeOrder(cart, selectedAddress.value, orderId, createdAt);
      OrderTotalRoundTrip(cart, selectedAddress.value, orderId, createdAt);
      orders := [order] + orders;
      cart := [];
      placed := true;
    }
  }
}
