/** The point-of-sale screen: the time-of-day gates, the order-type switch,
    the checks made when a product tile is tapped, the product filter and
    the exact-cash checkout. */
module PointOfSale {
  import opened Catalog
  import opened CartLines
  import opened StoreContext

  // -------------------------------------------------------------------- gates

  /** Alcohol may be sold from 17:00. */
  predicate IsAlcoholAllowed(t: Instant) {
    t.hour >= 17
  }

  /** Eat-in orders close at 20:30. */
  predicate IsEatInAllowed(t: Instant) {
    t.hour < 20 || (t.hour == 20 && t.minute < 30)
  }

  function MinuteOfDay(t: Instant): int {
    t.hour * 60 + t.minute
  }

  /** Both gates are thresholds on the minute of the day: alcohol opens at
      minute 1020 (17:00) and eat-in closes at minute 1230 (20:30). */
  lemma GatesAreThresholds(t: Instant)
    ensures IsAlcoholAllowed(t) <==> MinuteOfDay(t) >= 17 * 60
    ensures IsEatInAllowed(t) <==> MinuteOfDay(t) < 20 * 60 + 30
  {
  }

  lemma GateBoundaries(day: int)
    ensures !IsAlcoholAllowed(Instant(day, 16, 59)) && IsAlcoholAllowed(Instant(day, 17, 0))
    ensures IsEatInAllowed(Instant(day, 20, 29)) && !IsEatInAllowed(Instant(day, 20, 30))
    ensures !IsEatInAllowed(Instant(day, 23, 59))
  {
  }

  /** The effect that runs whenever the eat-in gate or the order type
      changes: eat-in becomes takeaway once the gate is closed. */
  function AutoSwitch(orderType: OrderType, t: Instant): (r: OrderType)
    ensures r == EatIn ==> IsEatInAllowed(t)
    ensures orderType == Takeaway ==> r == Takeaway
    ensures IsEatInAllowed(t) ==> r == orderType
  {
    if !IsEatInAllowed(t) && orderType == EatIn then Takeaway else orderType
  }

  // ------------------------------------------------------------ tapping a tile

  /** What tapping a product does, in place of the alerts the screen shows. */
  datatype ClickOutcome = AlcoholRestricted | OutOfStock | SentToCart

  /** `handleProductClick`: the alcohol gate (by the alcoholic flag) first,
      then, for stock-managed products, a missing or empty record. */
  function ClickCheck(p: Product, t: Instant, inventory: seq<InventoryRecord>): (r: ClickOutcome)
    ensures r == AlcoholRestricted <==> p.isAlcoholic && !IsAlcoholAllowed(t)
    ensures r == SentToCart && IsStockManaged(p) ==>
      FindRecord(inventory, p.productId).Some? && FindRecord(inventory, p.productId).value.currentQuantity > 0
    ensures !IsStockManaged(p) ==> r != OutOfStock
  {
    if p.isAlcoholic && !IsAlcoholAllowed(t) then AlcoholRestricted
    else if IsStockManaged(p) &&
            (match FindRecord(inventory, p.productId)
             case None => true
             case Some(inv) => inv.currentQuantity <= 0)
    then OutOfStock
    else SentToCart
  }

  /** The stock figure on a tile: the record's quantity, or 0 without one. */
  function TileStock(inventory: seq<InventoryRecord>, p: Product): int {
    match FindRecord(inventory, p.productId)
    case None => 0
    case Some(inv) => inv.currentQuantity
  }

  predicate TileOutOfStock(inventory: seq<InventoryRecord>, p: Product) {
    IsStockManaged(p) && TileStock(inventory, p) <= 0
  }

  predicate TileRestricted(p: Product, t: Instant) {
    p.isAlcoholic && !IsAlcoholAllowed(t)
  }

  /** A tile is clickable exactly when the click handler would pass the
      product on to the cart: the greyed-out tiles and the alerts agree. */
  lemma TileAgreesWithClick(p: Product, t: Instant, inventory: seq<InventoryRecord>)
    ensures (!TileOutOfStock(inventory, p) && !TileRestricted(p, t)) <==> ClickCheck(p, t, inventory) == SentToCart
  {
  }

  /** A tap that reaches the cart never takes a stock-managed product's line
      above the recorded stock: a new line needs stock above 0, and a line
      that grows was below the stock. */
  lemma ClickRespectsStock(cart: seq<CartItem>, p: Product, t: Instant, inventory: seq<InventoryRecord>)
    requires WellFormed(cart)
    requires ClickCheck(p, t, inventory) == SentToCart && IsStockManaged(p)
    ensures var r := AddLine(cart, p, inventory);
            r != cart ==>
              forall i :: 0 <= i < |r| && LineId(r[i]) == p.productId ==>
                r[i].quantity <= FindRecord(inventory, p.productId).value.currentQuantity
  {
    var r := AddLine(cart, p, inventory);
    if p.productId !in LineIds(cart) {
      AddAppendsNewLine(cart, p, inventory);
      forall i | 0 <= i < |cart| ensures LineId(r[i]) != p.productId {
        assert r[i] == cart[i];
        assert LineId(cart[i]) in LineIds(cart);
      }
    } else {
      var k :| 0 <= k < |cart| && LineId(cart[k]) == p.productId;
      AddToExistingLine(cart, p, inventory, k);
    }
  }

  // ------------------------------------------------------------------- filter

  /** `toLowerCase`, as a character mapping given by the caller. */
  function LowerCase(s: string, lower: char -> char): (r: string)
    ensures |r| == |s|
  {
    seq(|s|, i requires 0 <= i < |s| => lower(s[i]))
  }

  /** `includes`: `needle` occurs somewhere in `hay`. */
  predicate Contains(hay: string, needle: string) {
    exists i :: 0 <= i <= |hay| - |needle| && OccursAt(hay, needle, i)
  }

  predicate OccursAt(hay: string, needle: string, i: int)
    requires 0 <= i <= |hay| - |needle|
  {
    hay[i..i + |needle|] == needle
  }

  predicate MatchesFilter(p: Product, query: string, category: string, lower: char -> char) {
    Contains(LowerCase(p.name, lower), LowerCase(query, lower)) &&
    (category == "all" || p.categoryId == category)
  }

  /** `products.filter(...)`: the products that match, in catalog order. */
  function FilterProducts(products: seq<Product>, query: string, category: string, lower: char -> char): (r: seq<Product>)
    ensures |r| <= |products|
    ensures forall p :: p in r <==> p in products && MatchesFilter(p, query, category, lower)
  {
    if products == [] then []
    else
      (if MatchesFilter(products[0], query, category, lower) then [products[0]] else []) +
      FilterProducts(products[1..], query, category, lower)
  }

  /** The list shown on the grid; nothing until the catalog has arrived. */
  function FilteredProducts(catalog: Option<seq<Product>>, query: string, category: string, lower: char -> char): seq<Product> {
    match catalog
    case None => []
    case Some(products) => FilterProducts(products, query, category, lower)
  }

  /** Filtering commutes with concatenation, so matching products keep their
      relative order. */
  lemma {:induction false} FilterOfConcat(a: seq<Product>, b: seq<Product>, query: string, category: string, lower: char -> char)
    ensures FilterProducts(a + b, query, category, lower) ==
            FilterProducts(a, query, category, lower) + FilterProducts(b, query, category, lower)
  {
    if a == [] {
      assert a + b == b;
    } else {
      assert (a + b)[1..] == a[1..] + b;
      FilterOfConcat(a[1..], b, query, category, lower);
    }
  }

  /** The empty query under category "all" shows the whole catalog. */
  lemma {:induction false} EmptyQueryShowsAll(products: seq<Product>, lower: char -> char)
    ensures FilterProducts(products, "", "all", lower) == products
  {
    if products != [] {
      var name := LowerCase(products[0].name, lower);
      assert OccursAt(name, LowerCase("", lower), 0);
      assert MatchesFilter(products[0], "", "all", lower);
      EmptyQueryShowsAll(products[1..], lower);
    }
  }

  // ------------------------------------------------------------------- screen

  class PosScreen {
    const store: Store
    /** The product list fetched for the grid; absent until it arrives. */
    var catalog: Option<seq<Product>>
    var searchQuery: string
    var selectedCategory: string
    var orderType: OrderType

    constructor (store: Store)
      ensures this.store == store
      ensures catalog == None && searchQuery == "" && selectedCategory == "all" && orderType == Takeaway
    {
      this.store := store;
      catalog := None;
      searchQuery := "";
      selectedCategory := "all";
      orderType := Takeaway;
    }

    method LoadCatalog(products: seq<Product>)
      modifies this`catalog
      ensures catalog == Some(products)
    {
      catalog := Some(products);
    }

    method SetSearch(query: string, category: string)
      modifies this`searchQuery, this`selectedCategory
      ensures searchQuery == query && selectedCategory == category
    {
      searchQuery := query;
      selectedCategory := category;
    }

    /** The eat-in button does nothing while the gate is closed. */
    method SelectEatIn()
      modifies this`orderType
      ensures orderType == if IsEatInAllowed(store.currentTime) then EatIn else old(orderType)
    {
      if IsEatInAllowed(store.currentTime) {
        orderType := EatIn;
      }
    }

    method SelectTakeaway()
      modifies this`orderType
      ensures orderType == Takeaway
    {
      orderType := Takeaway;
    }

    /** The auto-switch effect, run after every clock change. */
    method ApplyEatInGate()
      modifies this`orderType
      ensures orderType == AutoSwitch(old(orderType), store.currentTime)
      ensures orderType == EatIn ==> IsEatInAllowed(store.currentTime)
    {
      if !IsEatInAllowed(store.currentTime) && orderType == EatIn {
        orderType := Takeaway;
      }
    }

    method HandleProductClick(p: Product) returns (outcome: ClickOutcome)
      requires store.Valid()
      modifies store`cart
      ensures store.Valid()
      ensures outcome == ClickCheck(p, store.currentTime, store.inventory)
      ensures store.cart == if outcome == SentToCart then AddLine(old(store.cart), p, store.inventory) else old(store.cart)
    {
      outcome := ClickCheck(p, store.currentTime, store.inventory);
      if outcome == SentToCart {
        store.AddToCart(p);
      }
    }

    /** Exact-cash checkout: the amount received is the cart total, so a
        committed order carries no change. */
    method Checkout(orderId: string) returns (ok: bool)
      requires store.Valid()
      modifies store`inventory, store`orders, store`cart
      ensures store.Valid()
      ensures ok <==> old(store.cart) != []
      ensures ok ==> store.orders == [BuildOrder(orderId, store.currentTime, orderType, Cash, Total(old(store.cart)), old(store.cart))] + old(store.orders)
      ensures ok ==> store.orders[0].changeAmount == 0 && store.orders[0].orderType == orderType
      ensures ok ==> store.cart == [] && store.inventory == DeductAll(old(store.inventory), old(store.cart), store.products)
      ensures !ok ==> store.cart == old(store.cart) && store.inventory == old(store.inventory) && store.orders == old(store.orders)
    {
      var received := Total(store.cart);
      ok := store.PlaceOrder(orderType, Cash, received, orderId);
    }
  }
}
