/** The central store: cart, inventory, order ledger and the clock, with the
    operations every page calls. */
module StoreContext {
  import opened Catalog
  import opened CartLines

  // ------------------------------------------------------------ order snapshot

  /** Σ unitPrice × quantity over the lines of an order. */
  function ItemsTotal(items: seq<OrderDetail>): int {
    if items == [] then 0 else items[0].unitPrice * items[0].quantity + ItemsTotal(items[1..])
  }

  /** The frozen copy of the cart lines that goes into an order. */
  function OrderItems(cart: seq<CartItem>): (r: seq<OrderDetail>)
    ensures |r| == |cart|
    ensures forall i :: 0 <= i < |cart| ==>
      r[i] == OrderDetail(LineId(cart[i]), cart[i].product.name, cart[i].quantity, cart[i].product.price)
  {
    seq(|cart|, i requires 0 <= i < |cart| =>
      OrderDetail(LineId(cart[i]), cart[i].product.name, cart[i].quantity, cart[i].product.price))
  }

  /** The total of the frozen lines is the total of the cart they were copied from. */
  lemma {:induction false} ItemsTotalOfCart(cart: seq<CartItem>)
    ensures ItemsTotal(OrderItems(cart)) == Total(cart)
  {
    if cart != [] {
      assert OrderItems(cart)[1..] == OrderItems(cart[1..]);
      ItemsTotalOfCart(cart[1..]);
    }
  }

  /** The order `placeOrder` records for a non-empty cart. Its total is the
      sum of its own lines' subtotals, and the change is what was received
      minus that total (negative when underpaid). */
  function BuildOrder(orderId: string, time: Instant, orderType: OrderType, paymentMethod: PaymentMethod,
                      received: int, cart: seq<CartItem>): (r: Order)
    ensures r.items == OrderItems(cart)
    ensures r.totalAmount == ItemsTotal(r.items) == Total(cart)
    ensures r.changeAmount == received - r.totalAmount
    ensures r.orderTime == time && r.orderType == orderType && r.paymentReceived == received
  {
    ItemsTotalOfCart(cart);
    var total := Total(cart);
    Order(orderId, time, orderType, total, paymentMethod, received, received - total, OrderItems(cart))
  }

  // --------------------------------------------------- inventory after an order

  /** `product && isStockManaged(product)` for the product looked up in the catalog. */
  predicate ManagedInCatalog(products: seq<Product>, id: string) {
    FindProduct(products, id).Some? && IsStockManaged(FindProduct(products, id).value)
  }

  /** One step of the `forEach` in `placeOrder`: the first record of a
      stock-managed catalog product loses the line's quantity. */
  function DeductLine(inventory: seq<InventoryRecord>, line: CartItem, products: seq<Product>): (r: seq<InventoryRecord>)
    ensures |r| == |inventory|
    ensures forall k :: 0 <= k < |inventory| ==>
      r[k].productId == inventory[k].productId && r[k].minThreshold == inventory[k].minThreshold &&
      r[k].lastUpdated == inventory[k].lastUpdated
  {
    if ManagedInCatalog(products, LineId(line)) then
      match RecordIndex(inventory, LineId(line))
      case None => inventory
      case Some(idx) =>
        inventory[idx := inventory[idx].(currentQuantity := inventory[idx].currentQuantity - line.quantity)]
    else inventory
  }

  /** The inventory after all of `lines` have been deducted, in cart order. */
  function DeductAll(inventory: seq<InventoryRecord>, lines: seq<CartItem>, products: seq<Product>): (r: seq<InventoryRecord>)
    ensures |r| == |inventory|
    ensures forall k :: 0 <= k < |inventory| ==>
      r[k].productId == inventory[k].productId && r[k].minThreshold == inventory[k].minThreshold &&
      r[k].lastUpdated == inventory[k].lastUpdated
  {
    if lines == [] then inventory
    else DeductLine(DeductAll(inventory, lines[..|lines| - 1], products), lines[|lines| - 1], products)
  }

  /** The number of pieces of `id` in the cart. */
  function CartQuantityOf(cart: seq<CartItem>, id: string): int {
    if cart == [] then 0
    else CartQuantityOf(cart[..|cart| - 1], id) + (if LineId(cart[|cart| - 1]) == id then cart[|cart| - 1].quantity else 0)
  }

  /** The effect of an order on record `j`: it loses the cart's quantity of
      its product exactly when that product is a stock-managed catalog product
      and `j` is the product's first record; every other record is unchanged.
      Nothing checks that the stock suffices. */
  lemma {:induction false} DeductAllEffect(inventory: seq<InventoryRecord>, cart: seq<CartItem>,
                                           products: seq<Product>, j: nat)
    requires j < |inventory|
    ensures var r := DeductAll(inventory, cart, products);
            var id := inventory[j].productId;
            var deducted := ManagedInCatalog(products, id) && RecordIndex(inventory, id) == Some(j);
            |r| == |inventory| &&
            r[j] == inventory[j].(currentQuantity := inventory[j].currentQuantity -
                                                    (if deducted then CartQuantityOf(cart, id) else 0))
  {
    if cart != [] {
      var prefix := cart[..|cart| - 1];
      var line := cart[|cart| - 1];
      DeductAllEffect(inventory, prefix, products, j);
      var before := DeductAll(inventory, prefix, products);
      RecordIndexSameIds(before, inventory, LineId(line));
      DeductLineAt(before, line, products, j);
    }
  }

  /** The effect of a single line on record `j`. */
  lemma DeductLineAt(inventory: seq<InventoryRecord>, line: CartItem, products: seq<Product>, j: nat)
    requires j < |inventory|
    ensures var hit := ManagedInCatalog(products, LineId(line)) && RecordIndex(inventory, LineId(line)) == Some(j);
            DeductLine(inventory, line, products)[j] ==
              inventory[j].(currentQuantity := inventory[j].currentQuantity - (if hit then line.quantity else 0))
  {
  }

  /** In a cart with one line per product, the cart's quantity of a product
      is its line's quantity. */
  lemma {:induction false} CartQuantityOfLine(cart: seq<CartItem>, k: nat)
    requires DistinctIds(cart) && k < |cart|
    ensures CartQuantityOf(cart, LineId(cart[k])) == cart[k].quantity
  {
    var n := |cart| - 1;
    if k == n {
      CartQuantityOfAbsent(cart[..n], LineId(cart[k]));
    } else {
      CartQuantityOfLine(cart[..n], k);
    }
  }

  /** A product without a line has quantity 0 in the cart. */
  lemma {:induction false} CartQuantityOfAbsent(cart: seq<CartItem>, id: string)
    requires forall i :: 0 <= i < |cart| ==> LineId(cart[i]) != id
    ensures CartQuantityOf(cart, id) == 0
  {
    if cart != [] {
      CartQuantityOfAbsent(cart[..|cart| - 1], id);
    }
  }

  /** One pass of the `forEach` in `placeOrder`, on the copied array. */
  method DeductLineInPlace(nextInv: array<InventoryRecord>, line: CartItem, products: seq<Product>)
    modifies nextInv
    ensures nextInv[..] == DeductLine(old(nextInv[..]), line, products)
  {
    ghost var before := nextInv[..];
    var product := FindProduct(products, LineId(line));
    if product.Some? && IsStockManaged(product.value) {
      var idx := RecordIndex(nextInv[..], LineId(line));
      if idx.Some? {
        nextInv[idx.value] := nextInv[idx.value].(currentQuantity := nextInv[idx.value].currentQuantity - line.quantity);
        assert nextInv[..] == before[idx.value := before[idx.value].(currentQuantity := before[idx.value].currentQuantity - line.quantity)];
      }
    }
  }

  /** The `setInventory` callback of `placeOrder`: copy the inventory, then
      for each cart line in turn, if the catalog marks its product as
      stock-managed, decrement the product's first record in place. */
  method DeductStock(inventory: seq<InventoryRecord>, cart: seq<CartItem>, products: seq<Product>)
    returns (next: seq<InventoryRecord>)
    ensures next == DeductAll(inventory, cart, products)
  {
    var nextInv := new InventoryRecord[|inventory|](k requires 0 <= k < |inventory| => inventory[k]);
    assert nextInv[..] == inventory;
    for i := 0 to |cart|
      invariant nextInv[..] == DeductAll(inventory, cart[..i], products)
    {
      DeductLineInPlace(nextInv, cart[i], products);
      assert cart[..i + 1][..i] == cart[..i];
    }
    assert cart[..|cart|] == cart;
    next := nextInv[..];
  }

  // --------------------------------------------------------- manual adjustment

  /** `updateInventory(id, q)`: every record for `id` takes quantity `q` and
      the stamp `now`; the value is not bounded below. */
  function SetStock(inventory: seq<InventoryRecord>, id: string, q: int, now: Instant): (r: seq<InventoryRecord>)
    ensures |r| == |inventory|
    ensures forall k :: 0 <= k < |inventory| ==>
      r[k].productId == inventory[k].productId && r[k].minThreshold == inventory[k].minThreshold
    ensures forall k :: 0 <= k < |inventory| && inventory[k].productId != id ==> r[k] == inventory[k]
    ensures forall k :: 0 <= k < |inventory| && inventory[k].productId == id ==>
      r[k] == inventory[k].(currentQuantity := q, lastUpdated := now)
  {
    seq(|inventory|, k requires 0 <= k < |inventory| =>
      if inventory[k].productId == id then inventory[k].(currentQuantity := q, lastUpdated := now)
      else inventory[k])
  }

  /** After an adjustment the product's record reads `q` (when it has one),
      other products read as before, and without a record nothing changes. */
  lemma SetStockLookup(inventory: seq<InventoryRecord>, id: string, q: int, now: Instant, other: string)
    requires other != id
    ensures var r := SetStock(inventory, id, q, now);
            && (FindRecord(inventory, id).None? ==> r == inventory)
            && (FindRecord(inventory, id).Some? ==>
                  FindRecord(r, id) == Some(FindRecord(inventory, id).value.(currentQuantity := q, lastUpdated := now)))
            && FindRecord(r, other) == FindRecord(inventory, other)
  {
    var r := SetStock(inventory, id, q, now);
    RecordIndexSameIds(r, inventory, id);
    RecordIndexSameIds(r, inventory, other);
  }

  // -------------------------------------------------------------------- store

  class Store {
    /** The catalog the store consults; the store never changes it. */
    const products: seq<Product>
    var inventory: seq<InventoryRecord>
    /** The order ledger, most recent first. */
    var orders: seq<Order>
    var cart: seq<CartItem>
    var currentTime: Instant
    var isSimulationMode: bool

    ghost predicate Valid()
      reads this
    {
      WellFormed(cart)
    }

    constructor (products: seq<Product>, inventory: seq<InventoryRecord>, now: Instant)
      ensures Valid()
      ensures this.products == products && this.inventory == inventory
      ensures orders == [] && cart == [] && currentTime == now && !isSimulationMode
    {
      this.products := products;
      this.inventory := inventory;
      orders := [];
      cart := [];
      currentTime := now;
      isSimulationMode := false;
    }

    /** Pin the clock to `t`; the live tick stops. */
    method SetSimulationTime(t: Instant)
      modifies this`currentTime, this`isSimulationMode
      ensures isSimulationMode && currentTime == t
    {
      isSimulationMode := true;
      currentTime := t;
    }

    /** Back to the live clock, reading the present instant `now`. */
    method ResetSimulation(now: Instant)
      modifies this`currentTime, this`isSimulationMode
      ensures !isSimulationMode && currentTime == now
    {
      isSimulationMode := false;
      currentTime := now;
    }

    method AddToCart(p: Product)
      requires Valid()
      modifies this`cart
      ensures Valid()
      ensures cart == AddLine(old(cart), p, inventory)
    {
      AddKeepsWellFormed(cart, p, inventory);
      cart := AddLine(cart, p, inventory);
    }

    method RemoveFromCart(id: string)
      requires Valid()
      modifies this`cart
      ensures Valid()
      ensures cart == RemoveLines(old(cart), id)
    {
      RemoveKeepsWellFormed(cart, id);
      cart := RemoveLines(cart, id);
    }

    method UpdateCartQuantity(id: string, delta: int)
      requires Valid()
      modifies this`cart
      ensures Valid()
      ensures cart == UpdateQuantityLines(old(cart), id, delta, products, inventory)
    {
      UpdateQuantityKeepsWellFormed(cart, id, delta, products, inventory);
      cart := UpdateQuantityLines(cart, id, delta, products, inventory);
    }

    method ClearCart()
      modifies this`cart
      ensures Valid() && cart == []
    {
      cart := [];
    }

    /** Manual override of a product's stock; `now` is the wall-clock stamp. */
    method UpdateInventory(id: string, newQuantity: int, now: Instant)
      modifies this`inventory
      ensures inventory == SetStock(old(inventory), id, newQuantity, now)
    {
      inventory := SetStock(inventory, id, newQuantity, now);
    }

    /** Finalise the cart into an order. An empty cart is refused with no
        change; otherwise the order is prepended to the ledger, stock is
        deducted and the cart is emptied. */
    method PlaceOrder(orderType: OrderType, paymentMethod: PaymentMethod, receivedAmount: int, orderId: string)
      returns (ok: bool)
      requires Valid()
      modifies this`inventory, this`orders, this`cart
      ensures Valid()
      ensures ok <==> old(cart) != []
      ensures !ok ==> cart == old(cart) && inventory == old(inventory) && orders == old(orders)
      ensures ok ==> cart == []
      ensures ok ==> orders == [BuildOrder(orderId, currentTime, orderType, paymentMethod, receivedAmount, old(cart))] + old(orders)
      ensures ok ==> inventory == DeductAll(old(inventory), old(cart), products)
    {
      if |cart| == 0 {
        return false;
      }
      var newOrder := BuildOrder(orderId, currentTime, orderType, paymentMethod, receivedAmount, cart);
      var nextInv := DeductStock(inventory, cart, products);
      inventory := nextInv;
      orders := [newOrder] + orders;
      cart := [];
      ok := true;
    }
  }
}
