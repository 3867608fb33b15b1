/** The cart updates of the central store, as functions from the old cart to
    the new one, with the facts the store relies on: one line per product,
    every quantity at least 1, and the total and item count of a cart. */
module CartLines {
  import opened Catalog

  function LineId(line: CartItem): string {
    line.product.productId
  }

  function LineIds(cart: seq<CartItem>): set<string> {
    set i | 0 <= i < |cart| :: LineId(cart[i])
  }

  /** No two lines are for the same product. */
  predicate DistinctIds(cart: seq<CartItem>) {
    forall i, j :: 0 <= i < j < |cart| ==> LineId(cart[i]) != LineId(cart[j])
  }

  predicate PositiveQuantities(cart: seq<CartItem>) {
    forall i :: 0 <= i < |cart| ==> cart[i].quantity >= 1
  }

  /** The invariant the store keeps for its cart. */
  predicate WellFormed(cart: seq<CartItem>) {
    DistinctIds(cart) && PositiveQuantities(cart)
  }

  /** `prev.find(item => item.product_id === id)`. */
  function FindLine(cart: seq<CartItem>, id: string): (r: Option<CartItem>)
    ensures r.Some? ==> r.value in cart && LineId(r.value) == id
    ensures r.None? <==> id !in LineIds(cart)
  {
    if cart == [] then None
    else if LineId(cart[0]) == id then Some(cart[0])
    else
      var r := FindLine(cart[1..], id);
      assert LineIds(cart) == {LineId(cart[0])} + LineIds(cart[1..]) by {
        LineIdsCons(cart);
      }
      r
  }

  lemma LineIdsCons(cart: seq<CartItem>)
    requires cart != []
    ensures LineIds(cart) == {LineId(cart[0])} + LineIds(cart[1..])
  {
    forall id | id in LineIds(cart) ensures id in {LineId(cart[0])} + LineIds(cart[1..]) {
      var i :| 0 <= i < |cart| && LineId(cart[i]) == id;
      if i > 0 {
        assert LineId(cart[1..][i - 1]) == id;
      }
    }
    forall id | id in LineIds(cart[1..]) ensures id in LineIds(cart) {
      var i :| 0 <= i < |cart[1..]| && LineId(cart[1..][i]) == id;
      assert LineId(cart[i + 1]) == id;
    }
  }

  lemma LineIdsSnoc(cart: seq<CartItem>, line: CartItem)
    ensures LineIds(cart + [line]) == LineIds(cart) + {LineId(line)}
  {
    var c := cart + [line];
    forall id | id in LineIds(c) ensures id in LineIds(cart) + {LineId(line)} {
      var i :| 0 <= i < |c| && LineId(c[i]) == id;
      if i < |cart| {
        assert LineId(cart[i]) == id;
      }
    }
    forall id | id in LineIds(cart) ensures id in LineIds(c) {
      var i :| 0 <= i < |cart| && LineId(cart[i]) == id;
      assert LineId(c[i]) == id;
    }
    assert LineId(c[|cart|]) == LineId(line);
  }

  /** Two carts with the same ids at the same places have the same id set. */
  lemma LineIdsPointwise(a: seq<CartItem>, b: seq<CartItem>)
    requires |a| == |b|
    requires forall i :: 0 <= i < |a| ==> LineId(a[i]) == LineId(b[i])
    ensures LineIds(a) == LineIds(b)
  {
    forall id | id in LineIds(a) ensures id in LineIds(b) {
      var i :| 0 <= i < |a| && LineId(a[i]) == id;
      assert LineId(b[i]) == id;
    }
    forall id | id in LineIds(b) ensures id in LineIds(a) {
      var i :| 0 <= i < |b| && LineId(b[i]) == id;
      assert LineId(a[i]) == id;
    }
  }

  /** In a cart with one line per product, the line for an id is the one found. */
  lemma {:induction false} FindLineAt(cart: seq<CartItem>, k: nat)
    requires DistinctIds(cart)
    requires k < |cart|
    ensures FindLine(cart, LineId(cart[k])) == Some(cart[k])
  {
    if k > 0 {
      assert LineId(cart[0]) != LineId(cart[k]);
      FindLineAt(cart[1..], k - 1);
    }
  }

  // ---------------------------------------------------------------- addToCart

  /** The stock check of `addToCart` for a product that already has a line:
      a stock-managed product with an inventory record whose line already
      holds at least the recorded quantity. */
  predicate IncrementBlocked(p: Product, existing: CartItem, inventory: seq<InventoryRecord>) {
    IsStockManaged(p) &&
    match FindRecord(inventory, p.productId)
    case None => false
    case Some(stock) => existing.quantity >= stock.currentQuantity
  }

  /** `prev.map(...)`: every line for `id` gets one more piece. */
  function IncrementLines(cart: seq<CartItem>, id: string): (r: seq<CartItem>)
    ensures |r| == |cart|
    ensures forall i :: 0 <= i < |cart| ==> LineId(r[i]) == LineId(cart[i])
  {
    seq(|cart|, i requires 0 <= i < |cart| =>
      if LineId(cart[i]) == id then cart[i].(quantity := cart[i].quantity + 1) else cart[i])
  }

  /** `addToCart(product)`: the new cart. */
  function AddLine(cart: seq<CartItem>, p: Product, inventory: seq<InventoryRecord>): (r: seq<CartItem>)
    ensures LineIds(r) == LineIds(cart) + {p.productId}
    ensures |r| == |cart| || r == cart + [CartItem(p, 1)]
  {
    match FindLine(cart, p.productId)
    case None =>
      LineIdsSnoc(cart, CartItem(p, 1));
      cart + [CartItem(p, 1)]
    case Some(existing) =>
      if IncrementBlocked(p, existing, inventory) then cart
      else
        var r := IncrementLines(cart, p.productId);
        LineIdsPointwise(r, cart);
        r
  }

  /** A product without a line gets exactly one new line, with quantity 1, at
      the end; every earlier line is kept as it was. */
  lemma AddAppendsNewLine(cart: seq<CartItem>, p: Product, inventory: seq<InventoryRecord>)
    requires p.productId !in LineIds(cart)
    ensures |AddLine(cart, p, inventory)| == |cart| + 1
    ensures AddLine(cart, p, inventory)[..|cart|] == cart
    ensures AddLine(cart, p, inventory)[|cart|] == CartItem(p, 1)
  {
  }

  /** A product that already has line `k` (in a cart with one line per
      product): the cart is unchanged exactly when the product is
      stock-managed, has an inventory record, and the line already holds at
      least the recorded quantity; otherwise line `k`, and only line `k`,
      grows by one. A product without an inventory record is never blocked. */
  lemma AddToExistingLine(cart: seq<CartItem>, p: Product, inventory: seq<InventoryRecord>, k: nat)
    requires DistinctIds(cart)
    requires k < |cart| && LineId(cart[k]) == p.productId
    ensures var blocked := IsStockManaged(p) && FindRecord(inventory, p.productId).Some? &&
                           cart[k].quantity >= FindRecord(inventory, p.productId).value.currentQuantity;
            AddLine(cart, p, inventory) ==
              if blocked then cart else cart[k := cart[k].(quantity := cart[k].quantity + 1)]
  {
    FindLineAt(cart, k);
    var r := IncrementLines(cart, p.productId);
    forall i | 0 <= i < |cart| && i != k ensures r[i] == cart[i] {
      assert LineId(cart[i]) != LineId(cart[k]);
    }
  }

  /** `addToCart` keeps one line per product and every quantity positive. */
  lemma AddKeepsWellFormed(cart: seq<CartItem>, p: Product, inventory: seq<InventoryRecord>)
    requires WellFormed(cart)
    ensures WellFormed(AddLine(cart, p, inventory))
  {
    if p.productId !in LineIds(cart) {
      AddAppendsNewLine(cart, p, inventory);
      assert AddLine(cart, p, inventory) == cart + [CartItem(p, 1)];
      AppendKeepsWellFormed(cart, CartItem(p, 1));
    } else {
      var k :| 0 <= k < |cart| && LineId(cart[k]) == p.productId;
      AddToExistingLine(cart, p, inventory, k);
      BumpKeepsWellFormed(cart, k);
    }
  }

  lemma AppendKeepsWellFormed(cart: seq<CartItem>, line: CartItem)
    requires WellFormed(cart) && LineId(line) !in LineIds(cart) && line.quantity >= 1
    ensures WellFormed(cart + [line])
  {
    var r := cart + [line];
    forall i, j | 0 <= i < j < |r| ensures LineId(r[i]) != LineId(r[j]) {
      if j == |cart| {
        assert LineId(cart[i]) in LineIds(cart);
      }
    }
  }

  lemma BumpKeepsWellFormed(cart: seq<CartItem>, k: nat)
    requires WellFormed(cart) && k < |cart|
    ensures WellFormed(cart[k := cart[k].(quantity := cart[k].quantity + 1)])
  {
    var r := cart[k := cart[k].(quantity := cart[k].quantity + 1)];
    forall i | 0 <= i < |r| ensures LineId(r[i]) == LineId(cart[i]) && r[i].quantity >= 1 {
    }
  }

  // ------------------------------------------------------- updateCartQuantity

  /** The stock check of `updateCartQuantity`: the product is looked up in the
      store's product list (not in the line), and only a stock-managed product
      with an inventory record can be over its stock. */
  predicate ExceedsStock(products: seq<Product>, inventory: seq<InventoryRecord>, id: string, newQty: int) {
    match FindProduct(products, id)
    case None => false
    case Some(product) =>
      IsStockManaged(product) &&
      match FindRecord(inventory, id)
      case None => false
      case Some(stock) => newQty > stock.currentQuantity
  }

  /** The new quantity is accepted when it is positive and within stock. */
  predicate QuantityAccepted(products: seq<Product>, inventory: seq<InventoryRecord>, id: string, newQty: int) {
    newQty > 0 && !ExceedsStock(products, inventory, id, newQty)
  }

  /** `updateCartQuantity(id, delta)`: the new cart. No line is ever removed
      or reordered, and lines for other products are untouched. */
  function UpdateQuantityLines(cart: seq<CartItem>, id: string, delta: int,
                               products: seq<Product>, inventory: seq<InventoryRecord>): (r: seq<CartItem>)
    ensures |r| == |cart| && LineIds(r) == LineIds(cart)
    ensures forall i :: 0 <= i < |cart| ==> r[i].product == cart[i].product
    ensures forall i :: 0 <= i < |cart| && LineId(cart[i]) != id ==> r[i] == cart[i]
  {
    var r := seq(|cart|, i requires 0 <= i < |cart| =>
      if LineId(cart[i]) == id && QuantityAccepted(products, inventory, id, cart[i].quantity + delta)
      then cart[i].(quantity := cart[i].quantity + delta)
      else cart[i]);
    LineIdsPointwise(r, cart);
    r
  }

  /** The line for `id` either keeps its quantity (the new one would be zero
      or less, or over the recorded stock of a stock-managed product found in
      the catalog) or takes `quantity + delta`. */
  lemma UpdateQuantityOutcome(cart: seq<CartItem>, id: string, delta: int,
                              products: seq<Product>, inventory: seq<InventoryRecord>, k: nat)
    requires k < |cart| && LineId(cart[k]) == id
    ensures var q := cart[k].quantity + delta;
            var r := UpdateQuantityLines(cart, id, delta, products, inventory);
            && (q <= 0 ==> r[k] == cart[k])
            && (ExceedsStock(products, inventory, id, q) ==> r[k] == cart[k])
            && (q > 0 && !ExceedsStock(products, inventory, id, q) ==> r[k].quantity == q)
  {
  }

  /** A change that goes through never leaves a stock-managed catalog product
      above its recorded stock. */
  lemma UpdateQuantityWithinStock(cart: seq<CartItem>, id: string, delta: int,
                                  products: seq<Product>, inventory: seq<InventoryRecord>, k: nat)
    requires k < |cart| && LineId(cart[k]) == id
    requires FindProduct(products, id).Some? && IsStockManaged(FindProduct(products, id).value)
    requires FindRecord(inventory, id).Some?
    ensures var r := UpdateQuantityLines(cart, id, delta, products, inventory);
            r[k] != cart[k] ==> r[k].quantity <= FindRecord(inventory, id).value.currentQuantity
  {
  }

  lemma UpdateQuantityKeepsWellFormed(cart: seq<CartItem>, id: string, delta: int,
                                      products: seq<Product>, inventory: seq<InventoryRecord>)
    requires WellFormed(cart)
    ensures WellFormed(UpdateQuantityLines(cart, id, delta, products, inventory))
  {
  }

  // ----------------------------------------------------------- removeFromCart

  /** `prev.filter(item => item.product_id !== id)`. */
  function RemoveLines(cart: seq<CartItem>, id: string): (r: seq<CartItem>)
    ensures |r| <= |cart|
    ensures LineIds(r) == LineIds(cart) - {id}
    ensures forall i :: 0 <= i < |r| ==> r[i] in cart
  {
    if cart == [] then []
    else
      var rest := RemoveLines(cart[1..], id);
      LineIdsCons(cart);
      if LineId(cart[0]) == id then rest
      else
        var r := [cart[0]] + rest;
        LineIdsCons(r);
        assert r[1..] == rest;
        r
  }

  /** With one line per product, removing the product of line `k` deletes
      exactly that line and keeps the order of the rest. */
  lemma {:induction false} RemoveDeletesLine(cart: seq<CartItem>, k: nat)
    requires DistinctIds(cart)
    requires k < |cart|
    ensures RemoveLines(cart, LineId(cart[k])) == cart[..k] + cart[k + 1..]
  {
    var id := LineId(cart[k]);
    if k == 0 {
      RemoveFirstLine(cart);
    } else {
      var rest := cart[1..];
      DistinctTail(cart);
      assert rest[k - 1] == cart[k];
      RemoveDeletesLine(rest, k - 1);
      RemoveKeepsHead(cart, id);
      assert rest[..k - 1] == cart[1..k] && rest[k..] == cart[k + 1..];
      assert [cart[0]] + cart[1..k] == cart[..k];
    }
  }

  lemma RemoveFirstLine(cart: seq<CartItem>)
    requires DistinctIds(cart) && cart != []
    ensures RemoveLines(cart, LineId(cart[0])) == cart[1..]
  {
    var id := LineId(cart[0]);
    assert id !in LineIds(cart[1..]);
    RemoveAbsent(cart[1..], id);
  }

  lemma DistinctTail(cart: seq<CartItem>)
    requires DistinctIds(cart) && cart != []
    ensures DistinctIds(cart[1..]) && LineId(cart[0]) !in LineIds(cart[1..])
  {
    var rest := cart[1..];
    forall i, j | 0 <= i < j < |rest| ensures LineId(rest[i]) != LineId(rest[j]) {
      assert rest[i] == cart[i + 1] && rest[j] == cart[j + 1];
    }
  }

  lemma RemoveKeepsHead(cart: seq<CartItem>, id: string)
    requires cart != [] && LineId(cart[0]) != id
    ensures RemoveLines(cart, id) == [cart[0]] + RemoveLines(cart[1..], id)
  {
  }

  /** Removing a product that has no line changes nothing. */
  lemma {:induction false} RemoveAbsent(cart: seq<CartItem>, id: string)
    requires id !in LineIds(cart)
    ensures RemoveLines(cart, id) == cart
  {
    if cart != [] {
      LineIdsCons(cart);
      RemoveAbsent(cart[1..], id);
      assert [cart[0]] + cart[1..] == cart;
    }
  }

  /** Removing twice is removing once. */
  lemma RemoveIdempotent(cart: seq<CartItem>, id: string)
    ensures RemoveLines(RemoveLines(cart, id), id) == RemoveLines(cart, id)
  {
    RemoveAbsent(RemoveLines(cart, id), id);
  }

  lemma {:induction false} RemoveKeepsWellFormed(cart: seq<CartItem>, id: string)
    requires WellFormed(cart)
    ensures WellFormed(RemoveLines(cart, id))
  {
    if cart != [] {
      assert WellFormed(cart[1..]);
      RemoveKeepsWellFormed(cart[1..], id);
      var rest := RemoveLines(cart[1..], id);
      if LineId(cart[0]) != id {
        LineIdsCons(cart);
        forall i | 0 <= i < |cart[1..]| ensures LineId(cart[1..][i]) != LineId(cart[0]) {
          assert cart[1..][i] == cart[i + 1];
        }
        assert LineId(cart[0]) !in LineIds(cart[1..]);
        var r := [cart[0]] + rest;
        forall i, j | 0 <= i < j < |r| ensures LineId(r[i]) != LineId(r[j]) {
          if i == 0 {
            assert LineId(rest[j - 1]) in LineIds(rest);
          } else {
            assert r[i] == rest[i - 1] && r[j] == rest[j - 1];
          }
        }
      }
    }
  }

  // ------------------------------------------------------------------- totals

  /** `cart.reduce((sum, item) => sum + item.price * item.quantity, 0)`. */
  function Total(cart: seq<CartItem>): int {
    if cart == [] then 0 else cart[0].product.price * cart[0].quantity + Total(cart[1..])
  }

  /** `cart.reduce((sum, item) => sum + item.quantity, 0)`. */
  function ItemCount(cart: seq<CartItem>): int {
    if cart == [] then 0 else cart[0].quantity + ItemCount(cart[1..])
  }

  /** The total and the count of a cart split into two parts add up. */
  lemma {:induction false} TotalsOfConcat(a: seq<CartItem>, b: seq<CartItem>)
    ensures Total(a + b) == Total(a) + Total(b)
    ensures ItemCount(a + b) == ItemCount(a) + ItemCount(b)
  {
    if a == [] {
      assert a + b == b;
    } else {
      assert (a + b)[1..] == a[1..] + b;
      TotalsOfConcat(a[1..], b);
    }
  }

  /** With non-negative prices and quantities both totals are non-negative;
      the empty cart has total 0 and count 0. */
  lemma {:induction false} TotalsNonNegative(cart: seq<CartItem>)
    requires forall i :: 0 <= i < |cart| ==> cart[i].product.price >= 0 && cart[i].quantity >= 0
    ensures Total(cart) >= 0 && ItemCount(cart) >= 0
    ensures cart == [] ==> Total(cart) == 0 && ItemCount(cart) == 0
  {
    if cart != [] {
      TotalsNonNegative(cart[1..]);
    }
  }
}
