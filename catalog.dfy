/** Record shapes shared by the store and the pages: products, inventory
    records, cart lines, orders and the clock reading that gates sales.
    Money and quantities are whole yen and whole pieces. */
module Catalog {

  datatype Option<T> = None | Some(value: T)

  type Hour = h: int | 0 <= h < 24
  type Minute = m: int | 0 <= m < 60

  /** A local clock reading. `day` is an ordered key for the calendar day
      (later days are larger); hour and minute are what `getHours` and
      `getMinutes` report. */
  datatype Instant = Instant(day: int, hour: Hour, minute: Minute)

  datatype ProductType = Food | Drink | Alcohol | Merchandise

  datatype Product = Product(
    productId: string,
    name: string,
    price: int,
    kind: ProductType,
    isAlcoholic: bool,
    categoryId: string,
    imageUrl: string,
    isActive: bool)

  datatype InventoryRecord = InventoryRecord(
    productId: string,
    currentQuantity: int,
    minThreshold: int,
    lastUpdated: Instant)

  datatype OrderType = EatIn | Takeaway

  /** Cash is the only payment method the system accepts. */
  datatype PaymentMethod = Cash

  datatype OrderDetail = OrderDetail(
    productId: string,
    name: string,
    quantity: int,
    unitPrice: int)

  datatype Order = Order(
    orderId: string,
    orderTime: Instant,
    orderType: OrderType,
    totalAmount: int,
    paymentMethod: PaymentMethod,
    paymentReceived: int,
    changeAmount: int,
    items: seq<OrderDetail>)

  /** A cart line: a snapshot of the product plus the quantity chosen. */
  datatype CartItem = CartItem(product: Product, quantity: int)

  /** Drinks and alcohol are not tracked in inventory; everything else is. */
  predicate IsStockManaged(p: Product) {
    p.kind != Drink && p.kind != Alcohol
  }

  /** `products.find(p => p.product_id === id)`: the first product with that id. */
  function FindProduct(products: seq<Product>, id: string): (r: Option<Product>)
    ensures r.Some? ==> r.value in products && r.value.productId == id
    ensures r.None? <==> forall i :: 0 <= i < |products| ==> products[i].productId != id
  {
    if products == [] then None
    else if products[0].productId == id then Some(products[0])
    else FindProduct(products[1..], id)
  }

  /** `findIndex` on the inventory: the position of the first record for `id`. */
  function RecordIndex(inventory: seq<InventoryRecord>, id: string): (r: Option<nat>)
    ensures r.Some? ==> r.value < |inventory| && inventory[r.value].productId == id
    ensures r.Some? ==> forall k :: 0 <= k < r.value ==> inventory[k].productId != id
    ensures r.None? <==> forall k :: 0 <= k < |inventory| ==> inventory[k].productId != id
  {
    if inventory == [] then None
    else if inventory[0].productId == id then Some(0)
    else match RecordIndex(inventory[1..], id)
      case None => None
      case Some(k) => Some(k + 1)
  }

  /** `inventory.find(i => i.product_id === id)`: the first record for `id`. */
  function FindRecord(inventory: seq<InventoryRecord>, id: string): (r: Option<InventoryRecord>)
    ensures r.Some? ==> r.value in inventory && r.value.productId == id
    ensures r.None? <==> forall k :: 0 <= k < |inventory| ==> inventory[k].productId != id
  {
    match RecordIndex(inventory, id)
    case None => None
    case Some(k) => Some(inventory[k])
  }

  /** Two inventories whose records carry the same ids in the same places
      agree on where the first record of every id is. */
  lemma {:induction false} RecordIndexSameIds(a: seq<InventoryRecord>, b: seq<InventoryRecord>, id: string)
    requires |a| == |b|
    requires forall k :: 0 <= k < |a| ==> a[k].productId == b[k].productId
    ensures RecordIndex(a, id) == RecordIndex(b, id)
  {
    if a != [] && a[0].productId != id {
      RecordIndexSameIds(a[1..], b[1..], id);
    }
  }
}
