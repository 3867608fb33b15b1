/** The order history page: the daily summary, which groups orders by their
    calendar day and splits each day's takings into eat-in and takeaway, and
    the product analysis, which adds up quantity and sales per product.
    Both walk the order list once, accumulate into a map keyed by the
    grouping key, and sort the map's values. */
module HistoryReport {
  import opened Catalog
  import opened Ledger

  function DayOf(o: Order): int {
    o.orderTime.day
  }

  function AmountOf(o: Order): int {
    o.totalAmount
  }

  /** An order counts as eat-in only when its type says so; every other
      order counts as takeaway. */
  function EatInAmountOf(o: Order): int {
    if o.orderType == EatIn then o.totalAmount else 0
  }

  function TakeawayAmountOf(o: Order): int {
    if o.orderType == EatIn then 0 else o.totalAmount
  }

  /** The set of calendar days on which some order was placed. */
  ghost function Days(orders: seq<Order>): set<int> {
    set j | 0 <= j < |orders| :: DayOf(orders[j])
  }

  // ------------------------------------------------------------ daily summary

  datatype DayGroup = DayGroup(date: int, total: int, eatIn: int, takeaway: int, count: int, orders: seq<Order>)

  function DateOf(g: DayGroup): int {
    g.date
  }

  function TotalOf(g: DayGroup): int {
    g.total
  }

  function CountOf(g: DayGroup): int {
    g.count
  }

  /** What the summary row for day `d` holds: the day's orders in their
      original order, their number and their sums. */
  function GroupFor(orders: seq<Order>, d: int): DayGroup {
    var g := Where(orders, DayOf, d);
    DayGroup(d, SumOf(g, AmountOf), SumOf(g, EatInAmountOf), SumOf(g, TakeawayAmountOf), |g|, g)
  }

  /** The row the page creates the first time it meets a day. */
  function EmptyGroup(d: int): DayGroup {
    DayGroup(d, 0, 0, 0, 0, [])
  }

  /** The accumulation step for one order. */
  function AddToGroup(e: DayGroup, o: Order): DayGroup {
    DayGroup(e.date, e.total + o.totalAmount, e.eatIn + EatInAmountOf(o),
             e.takeaway + TakeawayAmountOf(o), e.count + 1, e.orders + [o])
  }

  lemma GroupForStep(s: seq<Order>, d: int)
    requires s != []
    ensures GroupFor(s, d) ==
            if DayOf(s[|s| - 1]) == d then AddToGroup(GroupFor(s[..|s| - 1], d), s[|s| - 1])
            else GroupFor(s[..|s| - 1], d)
  {
    WhereSumSnoc(s, DayOf, AmountOf, d);
    WhereSumSnoc(s, DayOf, EatInAmountOf, d);
    WhereSumSnoc(s, DayOf, TakeawayAmountOf, d);
  }

  lemma GroupForAbsent(s: seq<Order>, d: int)
    requires d !in Days(s)
    ensures GroupFor(s, d) == EmptyGroup(d)
  {
    forall j | 0 <= j < |s| ensures DayOf(s[j]) != d {
      assert DayOf(s[j]) in Days(s);
    }
    WhereNone(s, DayOf, d);
  }

  lemma DaysStep(s: seq<Order>)
    requires s != []
    ensures Days(s) == Days(s[..|s| - 1]) + {DayOf(s[|s| - 1])}
  {
    var prefix := s[..|s| - 1];
    forall x | x in Days(s) ensures x in Days(prefix) + {DayOf(s[|s| - 1])} {
      var j :| 0 <= j < |s| && DayOf(s[j]) == x;
      if j < |prefix| {
        assert prefix[j] == s[j];
      }
    }
    forall x | x in Days(prefix) ensures x in Days(s) {
      var j :| 0 <= j < |prefix| && DayOf(prefix[j]) == x;
      assert s[j] == prefix[j];
    }
  }

  /** Within a day, eat-in plus takeaway is the day's total, and every order
      in the row was placed on that day. */
  lemma {:induction false} GroupSplit(orders: seq<Order>, d: int)
    ensures GroupFor(orders, d).eatIn + GroupFor(orders, d).takeaway == GroupFor(orders, d).total
    ensures forall t :: 0 <= t < |GroupFor(orders, d).orders| ==> DayOf(GroupFor(orders, d).orders[t]) == d
    ensures GroupFor(orders, d).count == |GroupFor(orders, d).orders|
  {
    var g := Where(orders, DayOf, d);
    SumOfSplit(g, EatInAmountOf, TakeawayAmountOf, AmountOf);
    WhereMembers(orders, DayOf, d);
  }

  /** A correct daily summary of `orders`: one row per day on which orders
      were placed, each row the group of that day, newest day first. */
  ghost predicate IsDailySummary(orders: seq<Order>, groups: seq<DayGroup>) {
    (forall t :: 0 <= t < |groups| ==> groups[t] == GroupFor(orders, groups[t].date)) &&
    (forall s, t :: 0 <= s < t < |groups| ==> groups[s].date > groups[t].date) &&
    (set t | 0 <= t < |groups| :: groups[t].date) == Days(orders)
  }

  /** The state of the summary loop after the orders `done`: `keys` lists
      the map's keys without repeats in the order they were first met, the
      keys are the days of `done`, and each entry is that day's group. */
  ghost predicate DaysTracked(m: map<int, DayGroup>, keys: seq<int>, done: seq<Order>) {
    Distinct(keys) &&
    (forall t :: 0 <= t < |keys| ==> keys[t] in m) &&
    (forall d :: d in m ==> d in keys) &&
    m.Keys == Days(done) &&
    (forall d :: d in m ==> m[d] == GroupFor(done, d))
  }

  /** The map step for one order: its effect on the map is the effect of
      the order on the rows' specification. */
  lemma SummaryStep(m: map<int, DayGroup>, keys: seq<int>, done: seq<Order>, order: Order,
                    m': map<int, DayGroup>, keys': seq<int>, s: seq<Order>)
    requires DaysTracked(m, keys, done)
    requires s == done + [order]
    requires keys' == if DayOf(order) in m then keys else keys + [DayOf(order)]
    requires m'.Keys == m.Keys + {DayOf(order)}
    requires forall d :: d in m' ==> m'[d] == if d != DayOf(order) then m[d]
                                           else AddToGroup(if d in m then m[d] else EmptyGroup(d), order)
    ensures DaysTracked(m', keys', s)
  {
    KeysStep(m, keys, DayOf(order), m', keys');
    assert s[..|s| - 1] == done;
    DaysStep(s);
    assert m'.Keys == Days(s);
    GroupsStep(m, done, order, m', s);
  }

  lemma GroupsStep(m: map<int, DayGroup>, done: seq<Order>, order: Order, m': map<int, DayGroup>, s: seq<Order>)
    requires s == done + [order]
    requires m.Keys == Days(done)
    requires forall d :: d in m ==> m[d] == GroupFor(done, d)
    requires forall d :: d in m' ==> d in m || d == DayOf(order)
    requires forall d :: d in m' ==> m'[d] == if d != DayOf(order) then m[d]
                                           else AddToGroup(if d in m then m[d] else EmptyGroup(d), order)
    ensures forall d :: d in m' ==> m'[d] == GroupFor(s, d)
  {
    assert s[..|s| - 1] == done;
    if DayOf(order) !in m {
      GroupForAbsent(done, DayOf(order));
    }
    forall d | d in m' ensures m'[d] == GroupFor(s, d) {
      GroupForStep(s, d);
    }
  }

  /** One pass of the summary loop: the order's day gets a fresh row if it
      has none yet, then the order is added to that row. */
  method AddOrder(m0: map<int, DayGroup>, keys0: seq<int>, order: Order, ghost done: seq<Order>)
    returns (m: map<int, DayGroup>, keys: seq<int>)
    requires DaysTracked(m0, keys0, done)
    ensures DaysTracked(m, keys, done + [order])
  {
    m, keys := m0, keys0;
    var d := DayOf(order);
    if d !in m {
      m := m[d := EmptyGroup(d)];
      keys := keys + [d];
    }
    var entry := m[d];
    entry := entry.(total := entry.total + order.totalAmount, count := entry.count + 1, orders := entry.orders + [order]);
    if order.orderType == EatIn {
      entry := entry.(eatIn := entry.eatIn + order.totalAmount);
    } else {
      entry := entry.(takeaway := entry.takeaway + order.totalAmount);
    }
    m := m[d := entry];
    SummaryStep(m0, keys0, done, order, m, keys, done + [order]);
  }

  method DailySummary(orders: seq<Order>) returns (groups: seq<DayGroup>)
    ensures IsDailySummary(orders, groups)
  {
    var m: map<int, DayGroup> := map[];
    var keys: seq<int> := [];
    for i := 0 to |orders|
      invariant DaysTracked(m, keys, orders[..i])
    {
      m, keys := AddOrder(m, keys, orders[i], orders[..i]);
      assert orders[..i + 1] == orders[..i] + [orders[i]];
    }
    assert orders[..|orders|] == orders;
    var values := seq(|keys|, t requires 0 <= t < |keys| => m[keys[t]]);
    groups := SortDescending(values, DateOf);
    SummaryFromValues(orders, keys, values, groups);
  }

  /** The sorted values of the finished map form a correct summary. */
  lemma SummaryFromValues(orders: seq<Order>, keys: seq<int>, values: seq<DayGroup>, groups: seq<DayGroup>)
    requires Distinct(keys) && |values| == |keys|
    requires forall t :: 0 <= t < |keys| ==> values[t] == GroupFor(orders, keys[t])
    requires (set t | 0 <= t < |keys| :: keys[t]) == Days(orders)
    requires SortedDesc(groups, DateOf) && multiset(groups) == multiset(values)
    ensures IsDailySummary(orders, groups)
  {
    assert Distinct(values) by {
      forall s, t | 0 <= s < t < |values| ensures values[s] != values[t] {
        assert values[s].date == keys[s];
      }
    }
    DistinctPermutation(values, groups);
    forall t | 0 <= t < |groups| ensures groups[t] == GroupFor(orders, groups[t].date) {
      assert groups[t] in multiset(values);
    }
    forall s, t | 0 <= s < t < |groups| ensures groups[s].date > groups[t].date {
      assert groups[s] != groups[t];
    }
    PermutedKeySet(values, groups, keys, DateOf);
    assert (set t | 0 <= t < |groups| :: groups[t].date) == (set t | 0 <= t < |groups| :: DateOf(groups[t]));
  }

  function DatesOf(groups: seq<DayGroup>): (r: seq<int>)
    ensures |r| == |groups|
  {
    seq(|groups|, t requires 0 <= t < |groups| => groups[t].date)
  }

  /** Grouping by day neither loses nor duplicates an order: the row totals
      add up to the sum of all order totals, and the row counts to the
      number of orders. */
  lemma SummaryConserves(orders: seq<Order>, groups: seq<DayGroup>)
    requires IsDailySummary(orders, groups)
    ensures SumOf(groups, TotalOf) == SumOf(orders, AmountOf)
    ensures SumOf(groups, CountOf) == |orders|
  {
    var ks := DatesOf(groups);
    forall j | 0 <= j < |orders| ensures DayOf(orders[j]) in ks {
      assert DayOf(orders[j]) in Days(orders);
      var t :| 0 <= t < |groups| && groups[t].date == DayOf(orders[j]);
      assert ks[t] == groups[t].date;
    }
    forall t | 0 <= t < |groups| ensures CountOf(groups[t]) == SumOf(Where(orders, DayOf, ks[t]), One) {
      SumOfOnes(Where(orders, DayOf, ks[t]));
    }
    SumOverGroups(groups, TotalOf, ks, orders, DayOf, AmountOf);
    SumOverGroups(groups, CountOf, ks, orders, DayOf, One);
    PartitionSum(orders, DayOf, AmountOf, ks);
    PartitionSum(orders, DayOf, One, ks);
    SumOfOnes(orders);
  }

  /** Each order lands in the row of its own day and in no other row. */
  lemma OrderInOneGroup(orders: seq<Order>, groups: seq<DayGroup>, j: nat)
    requires IsDailySummary(orders, groups) && j < |orders|
    ensures exists t :: 0 <= t < |groups| && groups[t].date == DayOf(orders[j]) && orders[j] in groups[t].orders
    ensures forall t :: 0 <= t < |groups| && orders[j] in groups[t].orders ==> groups[t].date == DayOf(orders[j])
  {
    assert DayOf(orders[j]) in Days(orders);
    var t :| 0 <= t < |groups| && groups[t].date == DayOf(orders[j]);
    WhereMembers(orders, DayOf, groups[t].date);
    assert orders[j] in groups[t].orders;
    forall u | 0 <= u < |groups| && orders[j] in groups[u].orders ensures groups[u].date == DayOf(orders[j]) {
      var g := Where(orders, DayOf, groups[u].date);
      WhereMembers(orders, DayOf, groups[u].date);
      var v :| 0 <= v < |g| && g[v] == orders[j];
    }
  }

  // --------------------------------------------------------- product analysis

  datatype ProductStat = ProductStat(id: string, name: string, qty: int, sales: int)

  function ItemId(item: OrderDetail): string {
    item.productId
  }

  function ItemQty(item: OrderDetail): int {
    item.quantity
  }

  function Subtotal(item: OrderDetail): int {
    item.unitPrice * item.quantity
  }

  function SalesOf(s: ProductStat): int {
    s.sales
  }

  function IdOf(s: ProductStat): string {
    s.id
  }

  function QtyOf(s: ProductStat): int {
    s.qty
  }

  /** Every order line of every order, order by order. */
  function AllItems(orders: seq<Order>): seq<OrderDetail> {
    if orders == [] then [] else AllItems(orders[..|orders| - 1]) + orders[|orders| - 1].items
  }

  ghost function ItemIds(items: seq<OrderDetail>): set<string> {
    set k | 0 <= k < |items| :: ItemId(items[k])
  }

  /** What the analysis row for product `id` holds: the name on its first
      order line, and the summed quantity and sales over its lines. */
  function StatFor(items: seq<OrderDetail>, id: string): ProductStat {
    var g := Where(items, ItemId, id);
    ProductStat(id, if g == [] then "" else g[0].name, SumOf(g, ItemQty), SumOf(g, Subtotal))
  }

  function FirstStat(item: OrderDetail): ProductStat {
    ProductStat(item.productId, item.name, 0, 0)
  }

  /** The accumulation step for one order line: `qty += quantity` and
      `sales += unit price × quantity`. */
  function AddToStat(e: ProductStat, item: OrderDetail): ProductStat {
    e.(qty := e.qty + item.quantity, sales := e.sales + item.unitPrice * item.quantity)
  }

  lemma StatForStep(s: seq<OrderDetail>, id: string)
    requires s != []
    ensures var x := s[|s| - 1];
            var before := StatFor(s[..|s| - 1], id);
            StatFor(s, id) ==
            if ItemId(x) != id then before
            else if Where(s[..|s| - 1], ItemId, id) == [] then AddToStat(FirstStat(x), x)
            else AddToStat(before, x)
  {
    var prefix := s[..|s| - 1];
    var x := s[|s| - 1];
    var g := Where(prefix, ItemId, id);
    WhereSumSnoc(s, ItemId, ItemQty, id);
    WhereSumSnoc(s, ItemId, Subtotal, id);
    if ItemId(x) == id {
      assert Where(s, ItemId, id) == g + [x];
      assert (g + [x])[0] == if g == [] then x else g[0];
    } else {
      assert Where(s, ItemId, id) == g + [];
      assert g + [] == g;
    }
  }

  lemma ItemIdsStep(s: seq<OrderDetail>)
    requires s != []
    ensures ItemIds(s) == ItemIds(s[..|s| - 1]) + {ItemId(s[|s| - 1])}
  {
    var prefix := s[..|s| - 1];
    forall x | x in ItemIds(s) ensures x in ItemIds(prefix) + {ItemId(s[|s| - 1])} {
      var j :| 0 <= j < |s| && ItemId(s[j]) == x;
      if j < |prefix| {
        assert prefix[j] == s[j];
      }
    }
    forall x | x in ItemIds(prefix) ensures x in ItemIds(s) {
      var j :| 0 <= j < |prefix| && ItemId(prefix[j]) == x;
      assert s[j] == prefix[j];
    }
  }

  lemma StatForAbsent(s: seq<OrderDetail>, id: string)
    requires id !in ItemIds(s)
    ensures Where(s, ItemId, id) == []
  {
    forall j | 0 <= j < |s| ensures ItemId(s[j]) != id {
      assert ItemId(s[j]) in ItemIds(s);
    }
    WhereNone(s, ItemId, id);
  }

  /** A correct product analysis of the lines `items`: one row per product
      sold, each row that product's sums, highest sales first. */
  ghost predicate IsProductAnalysis(items: seq<OrderDetail>, stats: seq<ProductStat>) {
    (forall t :: 0 <= t < |stats| ==> stats[t] == StatFor(items, stats[t].id)) &&
    (forall s, t :: 0 <= s < t < |stats| ==> stats[s].id != stats[t].id) &&
    (set t | 0 <= t < |stats| :: stats[t].id) == ItemIds(items) &&
    SortedDesc(stats, SalesOf)
  }

  /** The state of the analysis loops after the lines `done`. */
  ghost predicate ItemsTracked(m: map<string, ProductStat>, keys: seq<string>, done: seq<OrderDetail>) {
    Distinct(keys) &&
    (forall t :: 0 <= t < |keys| ==> keys[t] in m) &&
    (forall id :: id in m ==> id in keys) &&
    m.Keys == ItemIds(done) &&
    (forall id :: id in m ==> m[id] == StatFor(done, id))
  }

  /** The map step for one order line: its effect on the map is the effect
      of the line on the rows' specification. */
  lemma AnalysisStep(m: map<string, ProductStat>, keys: seq<string>, done: seq<OrderDetail>, item: OrderDetail,
                     m': map<string, ProductStat>, keys': seq<string>, s: seq<OrderDetail>)
    requires ItemsTracked(m, keys, done)
    requires s == done + [item]
    requires keys' == if item.productId in m then keys else keys + [item.productId]
    requires m'.Keys == m.Keys + {item.productId}
    requires forall id :: id in m' ==> m'[id] == if id != item.productId then m[id]
                                             else AddToStat(if id in m then m[id] else FirstStat(item), item)
    ensures ItemsTracked(m', keys', s)
  {
    KeysStep(m, keys, item.productId, m', keys');
    assert s[..|s| - 1] == done;
    ItemIdsStep(s);
    assert m'.Keys == ItemIds(s);
    StatsStep(m, done, item, m', s);
    assert forall id :: id in m' ==> id in keys';
  }

  lemma StatsStep(m: map<string, ProductStat>, done: seq<OrderDetail>, item: OrderDetail,
                  m': map<string, ProductStat>, s: seq<OrderDetail>)
    requires s == done + [item]
    requires m.Keys == ItemIds(done)
    requires forall id :: id in m ==> m[id] == StatFor(done, id)
    requires forall id :: id in m' ==> id in m || id == item.productId
    requires forall id :: id in m' ==> m'[id] == if id != item.productId then m[id]
                                             else AddToStat(if id in m then m[id] else FirstStat(item), item)
    ensures forall id :: id in m' ==> m'[id] == StatFor(s, id)
  {
    assert s[..|s| - 1] == done;
    if item.productId !in m {
      StatForAbsent(done, item.productId);
    } else {
      assert item.productId in ItemIds(done);
      var k :| 0 <= k < |done| && ItemId(done[k]) == item.productId;
      WhereMembers(done, ItemId, item.productId);
      assert done[k] in Where(done, ItemId, item.productId);
    }
    forall id | id in m' ensures m'[id] == StatFor(s, id) {
      StatForStep(s, id);
    }
  }

  /** One pass of the inner analysis loop: the line's product gets a fresh
      row named after this line if it has none yet, then the line is added. */
  method AddStatLine(m0: map<string, ProductStat>, keys0: seq<string>, item: OrderDetail, ghost done: seq<OrderDetail>)
    returns (m: map<string, ProductStat>, keys: seq<string>)
    requires ItemsTracked(m0, keys0, done)
    ensures ItemsTracked(m, keys, done + [item])
  {
    m, keys := m0, keys0;
    if item.productId !in m {
      m := m[item.productId := FirstStat(item)];
      keys := keys + [item.productId];
    }
    var entry := m[item.productId];
    entry := AddToStat(entry, item);
    m := m[item.productId := entry];
    AnalysisStep(m0, keys0, done, item, m, keys, done + [item]);
  }

  /** The inner loop of the analysis: the lines of one order, added to the
      map one by one. */
  method AddLines(m0: map<string, ProductStat>, keys0: seq<string>, items: seq<OrderDetail>, ghost done0: seq<OrderDetail>)
    returns (m: map<string, ProductStat>, keys: seq<string>)
    requires ItemsTracked(m0, keys0, done0)
    ensures ItemsTracked(m, keys, done0 + items)
  {
    m, keys := m0, keys0;
    assert done0 + items[..0] == done0;
    for j := 0 to |items|
      invariant ItemsTracked(m, keys, done0 + items[..j])
    {
      m, keys := AddStatLine(m, keys, items[j], done0 + items[..j]);
      assert done0 + items[..j + 1] == (done0 + items[..j]) + [items[j]];
    }
    assert done0 + items[..|items|] == done0 + items;
  }

  method ProductAnalysis(orders: seq<Order>) returns (stats: seq<ProductStat>)
    ensures IsProductAnalysis(AllItems(orders), stats)
  {
    var m: map<string, ProductStat> := map[];
    var keys: seq<string> := [];
    for i := 0 to |orders|
      invariant ItemsTracked(m, keys, AllItems(orders[..i]))
    {
      assert orders[..i + 1][..i] == orders[..i];
      m, keys := AddLines(m, keys, orders[i].items, AllItems(orders[..i]));
    }
    assert orders[..|orders|] == orders;
    ghost var done := AllItems(orders);
    var values := seq(|keys|, t requires 0 <= t < |keys| => m[keys[t]]);
    stats := SortDescending(values, SalesOf);
    AnalysisFromValues(done, keys, values, stats);
  }

  lemma AnalysisFromValues(items: seq<OrderDetail>, keys: seq<string>, values: seq<ProductStat>, stats: seq<ProductStat>)
    requires Distinct(keys) && |values| == |keys|
    requires forall t :: 0 <= t < |keys| ==> values[t] == StatFor(items, keys[t])
    requires (set t | 0 <= t < |keys| :: keys[t]) == ItemIds(items)
    requires SortedDesc(stats, SalesOf) && multiset(stats) == multiset(values)
    ensures IsProductAnalysis(items, stats)
  {
    assert Distinct(values) by {
      forall s, t | 0 <= s < t < |values| ensures values[s] != values[t] {
        assert values[s].id == keys[s];
      }
    }
    DistinctPermutation(values, stats);
    forall t | 0 <= t < |stats| ensures stats[t] == StatFor(items, stats[t].id) {
      assert stats[t] in multiset(values);
    }
    forall s, t | 0 <= s < t < |stats| ensures stats[s].id != stats[t].id {
      assert stats[s] != stats[t];
    }
    PermutedKeySet(values, stats, keys, IdOf);
    assert (set t | 0 <= t < |stats| :: stats[t].id) == (set t | 0 <= t < |stats| :: IdOf(stats[t]));
  }

  function IdsOf(stats: seq<ProductStat>): (r: seq<string>)
    ensures |r| == |stats|
  {
    seq(|stats|, t requires 0 <= t < |stats| => stats[t].id)
  }

  /** The analysis conserves the ledger: its sales add up to the sum of all
      line subtotals and its quantities to the number of pieces sold. */
  lemma AnalysisConserves(items: seq<OrderDetail>, stats: seq<ProductStat>)
    requires IsProductAnalysis(items, stats)
    ensures SumOf(stats, SalesOf) == SumOf(items, Subtotal)
    ensures SumOf(stats, QtyOf) == SumOf(items, ItemQty)
  {
    var ks := IdsOf(stats);
    assert Distinct(ks);
    forall j | 0 <= j < |items| ensures ItemId(items[j]) in ks {
      assert ItemId(items[j]) in ItemIds(items);
      var t :| 0 <= t < |stats| && stats[t].id == ItemId(items[j]);
      assert ks[t] == stats[t].id;
    }
    SumOverGroups(stats, SalesOf, ks, items, ItemId, Subtotal);
    SumOverGroups(stats, QtyOf, ks, items, ItemId, ItemQty);
    PartitionSum(items, ItemId, Subtotal, ks);
    PartitionSum(items, ItemId, ItemQty, ks);
  }

  /** A row's name is the one on the first order line of that product. */
  lemma {:induction false} NameFromFirstLine(items: seq<OrderDetail>, k: nat)
    requires k < |items|
    requires forall j :: 0 <= j < k ==> ItemId(items[j]) != ItemId(items[k])
    ensures StatFor(items, ItemId(items[k])).name == items[k].name
  {
    var id := ItemId(items[k]);
    assert items == items[..k] + ([items[k]] + items[k + 1..]);
    WhereConcat(items[..k], [items[k]] + items[k + 1..], ItemId, id);
    WhereConcat([items[k]], items[k + 1..], ItemId, id);
    WhereNone(items[..k], ItemId, id);
    assert [items[k]][..0] == [];
    assert Where([items[k]], ItemId, id) == [items[k]];
  }
}
