/** The dashboard: today's takings and order count, the average ticket,
    the low-stock alert list, the 24-bucket hourly histogram, the eat-in /
    takeaway split and the five best-selling products of the day. */
module DashboardReport {
  import opened Catalog
  import opened Ledger
  import opened HistoryReport
  import opened InventoryPage

  // --------------------------------------------------------------- key figures

  /** The orders placed on the day `today`, in ledger order. */
  function TodaysOrders(orders: seq<Order>, today: int): seq<Order> {
    Where(orders, DayOf, today)
  }

  function DailySales(orders: seq<Order>, today: int): int {
    SumOf(TodaysOrders(orders, today), AmountOf)
  }

  function OrderCount(orders: seq<Order>, today: int): int {
    |TodaysOrders(orders, today)|
  }

  /** The dashboard and the history page agree: today's takings and count
      are the history row for today. */
  lemma AgreesWithHistory(orders: seq<Order>, today: int)
    ensures DailySales(orders, today) == GroupFor(orders, today).total
    ensures OrderCount(orders, today) == GroupFor(orders, today).count
    ensures OrderCount(orders, today) <= |orders|
  {
  }

  /** Today's orders are exactly the ledger's orders placed today. */
  lemma TodaysOrdersMembers(orders: seq<Order>, today: int)
    ensures forall i :: 0 <= i < |TodaysOrders(orders, today)| ==>
      TodaysOrders(orders, today)[i] in orders && TodaysOrders(orders, today)[i].orderTime.day == today
    ensures forall i :: 0 <= i < |orders| && orders[i].orderTime.day == today ==> orders[i] in TodaysOrders(orders, today)
  {
    WhereMembers(orders, DayOf, today);
  }

  /** `Math.floor(dailySales / orderCount)` when there are orders, else 0. */
  function AverageTicket(sales: int, count: int): (r: int)
    ensures count > 0 ==> r * count <= sales < r * count + count
    ensures count <= 0 ==> r == 0
  {
    if count > 0 then sales / count else 0
  }

  // ----------------------------------------------------------------- low stock

  /** A record is on the alert list when it is at or under its threshold,
      unless the catalog lists its product as a drink or alcohol. A record
      whose product is not in the catalog stays on the list. */
  predicate OnAlert(products: seq<Product>, rec: InventoryRecord) {
    !(FindProduct(products, rec.productId).Some? && !IsStockManaged(FindProduct(products, rec.productId).value)) &&
    rec.currentQuantity <= rec.minThreshold
  }

  function LowStockItems(inventory: seq<InventoryRecord>, products: seq<Product>): (r: seq<InventoryRecord>)
    ensures |r| <= |inventory|
    ensures forall i :: 0 <= i < |r| ==> r[i] in inventory && OnAlert(products, r[i])
    ensures forall k :: 0 <= k < |inventory| && OnAlert(products, inventory[k]) ==> inventory[k] in r
  {
    if inventory == [] then []
    else
      (if OnAlert(products, inventory[0]) then [inventory[0]] else []) + LowStockItems(inventory[1..], products)
  }

  /** The filter keeps the records on alert in inventory order, one entry
      per record: a record list split in two is filtered part by part. */
  lemma {:induction false} LowStockOfConcat(x: seq<InventoryRecord>, y: seq<InventoryRecord>, products: seq<Product>)
    ensures LowStockItems(x + y, products) == LowStockItems(x, products) + LowStockItems(y, products)
  {
    if x == [] {
      assert x + y == y;
    } else {
      assert (x + y)[1..] == x[1..] + y;
      LowStockOfConcat(x[1..], y, products);
    }
  }

  /** The figure on the low-stock card: `lowStockItems.length`. */
  function LowStockCount(inventory: seq<InventoryRecord>, products: seq<Product>): (r: nat)
    ensures r <= |inventory|
    ensures r == 0 <==> forall k :: 0 <= k < |inventory| ==> !OnAlert(products, inventory[k])
    ensures r == |inventory| <==> forall k :: 0 <= k < |inventory| ==> OnAlert(products, inventory[k])
  {
    AlertListLength(inventory, products);
    |LowStockItems(inventory, products)|
  }

  /** The alert list is empty exactly when no record is on alert, and as
      long as the inventory exactly when every record is. */
  lemma {:induction false} AlertListLength(inventory: seq<InventoryRecord>, products: seq<Product>)
    ensures |LowStockItems(inventory, products)| == 0 <==> forall k :: 0 <= k < |inventory| ==> !OnAlert(products, inventory[k])
    ensures |LowStockItems(inventory, products)| == |inventory| <==>
            forall k :: 0 <= k < |inventory| ==> OnAlert(products, inventory[k])
  {
    if inventory != [] {
      var tail := inventory[1..];
      AlertListLength(tail, products);
      var head := if OnAlert(products, inventory[0]) then [inventory[0]] else [];
      assert LowStockItems(inventory, products) == head + LowStockItems(tail, products);
      assert |LowStockItems(inventory, products)| == |head| + |LowStockItems(tail, products)|;
      assert forall k :: 1 <= k < |inventory| ==> inventory[k] == tail[k - 1];
    }
  }

  /** The dashboard's alert and the inventory page's red flag agree on every
      catalog product that has a record. */
  lemma AlertAgreesWithInventoryPage(products: seq<Product>, inventory: seq<InventoryRecord>, k: nat)
    requires k < |products|
    requires FindProduct(products, products[k].productId) == Some(products[k])
    requires FindRecord(inventory, products[k].productId).Some?
    ensures FindRecord(inventory, products[k].productId).value in LowStockItems(inventory, products) <==>
            IsLow(MergedData(products, inventory)[k])
  {
    var rec := FindRecord(inventory, products[k].productId).value;
    IsLowOfRecord(products[k], inventory);
    var j :| 0 <= j < |inventory| && inventory[j] == rec;
  }

  // ------------------------------------------------------------------- hourly

  function HourOf(o: Order): int {
    o.orderTime.hour
  }

  datatype HourBucket = HourBucket(hour: int, sales: int)

  function SalesIn(b: HourBucket): int {
    b.sales
  }

  /** `hourlyData`: bucket `h` holds the takings of today's orders placed
      in hour `h`. */
  /** Appending one order moves only its own hour's total. */
  lemma HourSnoc(done: seq<Order>, o: Order)
    ensures forall h :: SumOf(Where(done + [o], HourOf, h), AmountOf) ==
                        SumOf(Where(done, HourOf, h), AmountOf) + (if HourOf(o) == h then o.totalAmount else 0)
  {
    forall h
      ensures SumOf(Where(done + [o], HourOf, h), AmountOf) ==
              SumOf(Where(done, HourOf, h), AmountOf) + (if HourOf(o) == h then o.totalAmount else 0)
    {
      assert (done + [o])[..|done|] == done;
      WhereSumSnoc(done + [o], HourOf, AmountOf, h);
    }
  }

  /** One pass of the `forEach` in `hourlyData`: add the order to its hour's bucket. */
  method AddToHour(data: array<HourBucket>, ghost done: seq<Order>, o: Order)
    requires data.Length == 24
    requires forall h :: 0 <= h < 24 ==> data[h].hour == h && data[h].sales == SumOf(Where(done, HourOf, h), AmountOf)
    modifies data
    ensures forall h :: 0 <= h < 24 ==> data[h].hour == h && data[h].sales == SumOf(Where(done + [o], HourOf, h), AmountOf)
  {
    HourSnoc(done, o);
    ghost var before := data[..];
    var hour := o.orderTime.hour;
    if hour >= 0 && hour < 24 {
      data[hour] := data[hour].(sales := data[hour].sales + o.totalAmount);
      assert data[..] == before[hour := before[hour].(sales := before[hour].sales + o.totalAmount)];
    }
  }

  method HourlyData(orders: seq<Order>, today: int) returns (buckets: seq<HourBucket>)
    ensures |buckets| == 24
    ensures forall h :: 0 <= h < 24 ==>
      buckets[h].hour == h && buckets[h].sales == SumOf(Where(TodaysOrders(orders, today), HourOf, h), AmountOf)
  {
    var todays := TodaysOrders(orders, today);
    var data := new HourBucket[24](i => HourBucket(i, 0));
    for i := 0 to |todays|
      invariant forall h :: 0 <= h < 24 ==>
        data[h].hour == h && data[h].sales == SumOf(Where(todays[..i], HourOf, h), AmountOf)
    {
      AddToHour(data, todays[..i], todays[i]);
      assert todays[..i + 1] == todays[..i] + [todays[i]];
    }
    assert todays[..|todays|] == todays;
    buckets := data[..];
  }

  function Hours(): (r: seq<int>)
    ensures |r| == 24 && forall h :: 0 <= h < 24 ==> r[h] == h
  {
    seq(24, h requires 0 <= h < 24 => h)
  }

  /** The histogram loses nothing: its buckets add up to today's takings. */
  lemma HourlyConserves(orders: seq<Order>, today: int, buckets: seq<HourBucket>)
    requires |buckets| == 24
    requires forall h :: 0 <= h < 24 ==> buckets[h].sales == SumOf(Where(TodaysOrders(orders, today), HourOf, h), AmountOf)
    ensures SumOf(buckets, SalesIn) == DailySales(orders, today)
  {
    var todays := TodaysOrders(orders, today);
    var ks := Hours();
    assert Distinct(ks);
    forall j | 0 <= j < |todays| ensures HourOf(todays[j]) in ks {
      assert ks[HourOf(todays[j])] == HourOf(todays[j]);
    }
    SumOverGroups(buckets, SalesIn, ks, todays, HourOf, AmountOf);
    PartitionSum(todays, HourOf, AmountOf, ks);
  }

  // ---------------------------------------------------------- order-type split

  /** `typeData`: today's takings split into eat-in and the rest. */
  method TypeData(orders: seq<Order>, today: int) returns (eatIn: int, takeaway: int)
    ensures eatIn == SumOf(TodaysOrders(orders, today), EatInAmountOf)
    ensures takeaway == SumOf(TodaysOrders(orders, today), TakeawayAmountOf)
    ensures eatIn + takeaway == DailySales(orders, today)
  {
    var todays := TodaysOrders(orders, today);
    eatIn, takeaway := 0, 0;
    for i := 0 to |todays|
      invariant eatIn == SumOf(todays[..i], EatInAmountOf)
      invariant takeaway == SumOf(todays[..i], TakeawayAmountOf)
    {
      var o := todays[i];
      if o.orderType == EatIn {
        eatIn := eatIn + o.totalAmount;
      } else {
        takeaway := takeaway + o.totalAmount;
      }
      assert todays[..i + 1][..i] == todays[..i];
    }
    assert todays[..|todays|] == todays;
    SumOfSplit(todays, EatInAmountOf, TakeawayAmountOf, AmountOf);
  }

  // ------------------------------------------------------------- best sellers

  datatype Popular = Popular(id: string, name: string, count: int)

  function CountIn(p: Popular): int {
    p.count
  }

  /** `product?.name || 'Unknown'`: the catalog name, or "Unknown" when the
      product is not in the catalog or its name is empty. */
  function DisplayName(products: seq<Product>, id: string): (r: string)
    ensures FindProduct(products, id).Some? && FindProduct(products, id).value.name != "" ==>
      r == FindProduct(products, id).value.name
    ensures FindProduct(products, id).Some? && FindProduct(products, id).value.name == "" ==> r == "Unknown"
    ensures FindProduct(products, id).None? ==> r == "Unknown"
  {
    match FindProduct(products, id)
    case Some(p) => if p.name != "" then p.name else "Unknown"
    case None => "Unknown"
  }

  /** Pieces of product `id` among the lines `items`. */
  function QtyFor(items: seq<OrderDetail>, id: string): int {
    SumOf(Where(items, ItemId, id), ItemQty)
  }

  /** The state of the best-seller loops after the lines `done`. */
  ghost predicate QtyTracked(m: map<string, int>, keys: seq<string>, done: seq<OrderDetail>) {
    Distinct(keys) &&
    (forall t :: 0 <= t < |keys| ==> keys[t] in m) &&
    (forall id :: id in m ==> id in keys) &&
    m.Keys == ItemIds(done) &&
    (forall id :: id in m ==> m[id] == QtyFor(done, id))
  }

  lemma QtyStep(m: map<string, int>, keys: seq<string>, done: seq<OrderDetail>, item: OrderDetail,
                m': map<string, int>, keys': seq<string>, s: seq<OrderDetail>)
    requires QtyTracked(m, keys, done)
    requires s == done + [item]
    requires keys' == if item.productId in m then keys else keys + [item.productId]
    requires m' == m[item.productId := (if item.productId in m then m[item.productId] else 0) + item.quantity]
    ensures QtyTracked(m', keys', s)
  {
    KeysStep(m, keys, item.productId, m', keys');
    assert s[..|s| - 1] == done;
    ItemIdsStep(s);
    assert m'.Keys == ItemIds(s);
    QtyValuesStep(m, done, item, m', s);
  }

  lemma QtyValuesStep(m: map<string, int>, done: seq<OrderDetail>, item: OrderDetail,
                      m': map<string, int>, s: seq<OrderDetail>)
    requires m.Keys == ItemIds(done) && forall id :: id in m ==> m[id] == QtyFor(done, id)
    requires s == done + [item]
    requires m' == m[item.productId := (if item.productId in m then m[item.productId] else 0) + item.quantity]
    ensures forall id :: id in m' ==> m'[id] == QtyFor(s, id)
  {
    assert s[..|s| - 1] == done;
    if item.productId !in m {
      StatForAbsent(done, item.productId);
    }
    forall id | id in m' ensures m'[id] == QtyFor(s, id) {
      WhereSumSnoc(s, ItemId, ItemQty, id);
    }
  }

  /** One pass of the inner loop: `salesMap.get(id) || 0` plus the line's
      quantity is stored back; a new id goes to the end of the key order. */
  method AddQuantity(m0: map<string, int>, keys0: seq<string>, item: OrderDetail, ghost done: seq<OrderDetail>)
    returns (m: map<string, int>, keys: seq<string>)
    requires QtyTracked(m0, keys0, done)
    ensures QtyTracked(m, keys, done + [item])
  {
    m, keys := m0, keys0;
    var current := if item.productId in m then m[item.productId] else 0;
    if item.productId !in m {
      keys := keys + [item.productId];
    }
    m := m[item.productId := current + item.quantity];
    QtyStep(m0, keys0, done, item, m, keys, done + [item]);
  }

  /** The inner loop: one order's lines added to the quantity map. */
  method AddQuantities(m0: map<string, int>, keys0: seq<string>, items: seq<OrderDetail>, ghost done0: seq<OrderDetail>)
    returns (m: map<string, int>, keys: seq<string>)
    requires QtyTracked(m0, keys0, done0)
    ensures QtyTracked(m, keys, done0 + items)
  {
    m, keys := m0, keys0;
    assert done0 + items[..0] == done0;
    for j := 0 to |items|
      invariant QtyTracked(m, keys, done0 + items[..j])
    {
      m, keys := AddQuantity(m, keys, items[j], done0 + items[..j]);
      assert done0 + items[..j + 1] == (done0 + items[..j]) + [items[j]];
    }
    assert done0 + items[..|items|] == done0 + items;
  }

  /** A correct top list for the lines `items`: at most five distinct sold
      products, each with its catalog name and the pieces sold, most
      pieces first, and no product left out that sold more than one listed. */
  ghost predicate IsTopFive(items: seq<OrderDetail>, products: seq<Product>, top: seq<Popular>) {
    |top| <= 5 &&
    (forall t :: 0 <= t < |top| ==>
      top[t].id in ItemIds(items) &&
      top[t] == Popular(top[t].id, DisplayName(products, top[t].id), QtyFor(items, top[t].id))) &&
    (forall s, t :: 0 <= s < t < |top| ==> top[s].id != top[t].id) &&
    SortedDesc(top, CountIn) &&
    (forall id :: id in ItemIds(items) && (forall t :: 0 <= t < |top| ==> top[t].id != id) ==>
      |top| == 5 && forall t :: 0 <= t < |top| ==> top[t].count >= QtyFor(items, id))
  }

  /** The outer loop of `popularProducts`: every line of today's orders
      added to the quantity map, in ledger order. */
  method SoldQuantities(todays: seq<Order>) returns (m: map<string, int>, keys: seq<string>)
    ensures QtyTracked(m, keys, AllItems(todays))
  {
    m, keys := map[], [];
    for i := 0 to |todays|
      invariant QtyTracked(m, keys, AllItems(todays[..i]))
    {
      assert todays[..i + 1][..i] == todays[..i];
      m, keys := AddQuantities(m, keys, todays[i].items, AllItems(todays[..i]));
    }
    assert todays[..|todays|] == todays;
  }

  method PopularProducts(orders: seq<Order>, today: int, products: seq<Product>) returns (top: seq<Popular>)
    ensures IsTopFive(AllItems(TodaysOrders(orders, today)), products, top)
  {
    var todays := TodaysOrders(orders, today);
    var m, keys := SoldQuantities(todays);
    var entries := seq(|keys|, t requires 0 <= t < |keys| => Popular(keys[t], DisplayName(products, keys[t]), m[keys[t]]));
    var ranked := SortDescending(entries, CountIn);
    var n := if |ranked| < 5 then |ranked| else 5;
    top := ranked[..n];
    TopFromRanking(AllItems(todays), products, keys, entries, ranked, n);
  }

  /** The sorted entries are the map's entries, one per product sold. */
  lemma RankingFacts(items: seq<OrderDetail>, products: seq<Product>, keys: seq<string>,
                     entries: seq<Popular>, ranked: seq<Popular>)
    requires Distinct(keys) && |entries| == |keys|
    requires forall t :: 0 <= t < |keys| ==>
      entries[t] == Popular(keys[t], DisplayName(products, keys[t]), QtyFor(items, keys[t]))
    requires (set t | 0 <= t < |keys| :: keys[t]) == ItemIds(items)
    requires multiset(ranked) == multiset(entries)
    ensures forall t :: 0 <= t < |ranked| ==>
      ranked[t].id in ItemIds(items) &&
      ranked[t] == Popular(ranked[t].id, DisplayName(products, ranked[t].id), QtyFor(items, ranked[t].id))
    ensures forall s, t :: 0 <= s < t < |ranked| ==> ranked[s].id != ranked[t].id
    ensures forall id :: id in ItemIds(items) ==> exists v :: 0 <= v < |ranked| && ranked[v].id == id
  {
    assert Distinct(entries) by {
      forall s, t | 0 <= s < t < |entries| ensures entries[s] != entries[t] {
        assert entries[s].id == keys[s];
      }
    }
    DistinctPermutation(entries, ranked);
    forall t | 0 <= t < |ranked|
      ensures ranked[t].id in ItemIds(items)
      ensures ranked[t] == Popular(ranked[t].id, DisplayName(products, ranked[t].id), QtyFor(items, ranked[t].id))
    {
      assert ranked[t] in multiset(entries);
      var u :| 0 <= u < |entries| && entries[u] == ranked[t];
      assert keys[u] in (set t | 0 <= t < |keys| :: keys[t]);
    }
    forall s, t | 0 <= s < t < |ranked| ensures ranked[s].id != ranked[t].id {
      assert ranked[s] != ranked[t];
    }
    forall id | id in ItemIds(items) ensures exists v :: 0 <= v < |ranked| && ranked[v].id == id {
      var u :| 0 <= u < |keys| && keys[u] == id;
      assert entries[u] in multiset(ranked);
      var v :| 0 <= v < |ranked| && ranked[v] == entries[u];
    }
  }

  /** A product that the cut leaves out sold no more than any product kept,
      and the cut only leaves products out once five are kept. */
  lemma CutLeavesLesser(ranked: seq<Popular>, n: nat, v: nat)
    requires SortedDesc(ranked, CountIn)
    requires n == if |ranked| < 5 then |ranked| else 5
    requires v < |ranked|
    requires forall t :: 0 <= t < n ==> ranked[t].id != ranked[v].id
    ensures n == 5 && forall t :: 0 <= t < n ==> ranked[t].count >= ranked[v].count
  {
    var left := ranked[v];
    assert n <= v;
    forall t | 0 <= t < n ensures ranked[t].count >= ranked[v].count {
      assert CountIn(ranked[t]) >= CountIn(ranked[v]);
    }
  }

  lemma TopFromRanking(items: seq<OrderDetail>, products: seq<Product>, keys: seq<string>,
                       entries: seq<Popular>, ranked: seq<Popular>, n: nat)
    requires Distinct(keys) && |entries| == |keys|
    requires forall t :: 0 <= t < |keys| ==>
      entries[t] == Popular(keys[t], DisplayName(products, keys[t]), QtyFor(items, keys[t]))
    requires (set t | 0 <= t < |keys| :: keys[t]) == ItemIds(items)
    requires SortedDesc(ranked, CountIn) && multiset(ranked) == multiset(entries)
    requires n == if |ranked| < 5 then |ranked| else 5
    ensures IsTopFive(items, products, ranked[..n])
  {
    RankingFacts(items, products, keys, entries, ranked);
    var top := ranked[..n];
    assert SortedDesc(top, CountIn);
    forall id | id in ItemIds(items) && (forall t :: 0 <= t < |top| ==> top[t].id != id)
      ensures |top| == 5 && forall t :: 0 <= t < |top| ==> top[t].count >= QtyFor(items, id)
    {
      var v :| 0 <= v < |ranked| && ranked[v].id == id;
      forall t | 0 <= t < n ensures ranked[t].id != id {
        assert top[t] == ranked[t];
      }
      CutLeavesLesser(ranked, n, v);
    }
  }
}
