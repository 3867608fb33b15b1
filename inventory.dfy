/** The inventory page: the table that joins the catalog with the stock
    records, the low-stock flag that enables a restock request, the
    suggested request quantity, and the life of a factory restock request
    from PENDING to DELIVERED (which writes the stock back to the store) or
    CANCELLED. */
module InventoryPage {
  import opened Catalog
  import opened StoreContext

  // ------------------------------------------------------------- merged table

  /** A table row: the product, its stock and threshold (0 without a
      record) and the record's stamp when there is one. */
  datatype MergedRow = MergedRow(product: Product, stock: int, threshold: int, lastUpdated: Option<Instant>)

  function MergeRow(p: Product, inventory: seq<InventoryRecord>): MergedRow {
    match FindRecord(inventory, p.productId)
    case None => MergedRow(p, 0, 0, None)
    case Some(r) => MergedRow(p, r.currentQuantity, r.minThreshold, Some(r.lastUpdated))
  }

  /** `mergedData`: one row per product, in catalog order. */
  function MergedData(products: seq<Product>, inventory: seq<InventoryRecord>): (r: seq<MergedRow>)
    ensures |r| == |products|
    ensures forall k :: 0 <= k < |products| ==> r[k].product == products[k]
    ensures forall k :: 0 <= k < |products| ==>
      match FindRecord(inventory, products[k].productId)
      case None => r[k].stock == 0 && r[k].threshold == 0 && r[k].lastUpdated.None?
      case Some(rec) => r[k].stock == rec.currentQuantity && r[k].threshold == rec.minThreshold
                        && r[k].lastUpdated == Some(rec.lastUpdated)
  {
    seq(|products|, k requires 0 <= k < |products| => MergeRow(products[k], inventory))
  }

  /** The red flag, which is also what enables the restock button. */
  predicate IsLow(row: MergedRow) {
    IsStockManaged(row.product) && row.stock <= row.threshold
  }

  /** The flag in terms of the store's data: a stock-managed product is low
      when its record is at or under its threshold, and always when it has
      no record at all (0 against 0); drinks and alcohol never are. */
  lemma IsLowOfRecord(p: Product, inventory: seq<InventoryRecord>)
    ensures IsLow(MergeRow(p, inventory)) <==>
            IsStockManaged(p) &&
            (FindRecord(inventory, p.productId).None? ||
             FindRecord(inventory, p.productId).value.currentQuantity <= FindRecord(inventory, p.productId).value.minThreshold)
  {
  }

  // ------------------------------------------------------ suggested quantity

  function Max(a: int, b: int): int {
    if a >= b then a else b
  }

  /** `Math.max(1, threshold * 2 - stock) || 10`: enough to reach twice the
      threshold, at least one. The fallback to 10 is kept as written; it
      never applies, since the maximum is at least 1. */
  function RecommendedQty(stock: int, threshold: int): (r: int)
    ensures r >= 1
    ensures r >= 2 * threshold - stock
    ensures r == 1 || r == 2 * threshold - stock
  {
    var recommended := Max(1, threshold * 2 - stock);
    if recommended == 0 then 10 else recommended
  }

  /** Requesting the suggested quantity brings a low product back to at
      least twice its threshold. */
  lemma RecommendedRestoresStock(stock: int, threshold: int)
    ensures stock + RecommendedQty(stock, threshold) >= 2 * threshold
    ensures stock + RecommendedQty(stock, threshold) > stock
  {
  }

  // --------------------------------------------------------- factory requests

  datatype RequestStatus = Pending | Delivered | Cancelled

  datatype FactoryRequest = FactoryRequest(
    requestId: string,
    productId: string,
    productName: string,
    requestQuantity: int,
    createdAt: Instant,
    etaAt: Instant,
    note: Option<string>,
    status: RequestStatus)

  /** The product the request form is about, as captured when it opened. */
  datatype RequestTarget = RequestTarget(productId: string, productName: string, currentStock: int, threshold: int)

  /** A JavaScript number as far as the quantity field cares: a whole
      number, an infinity (from a very long digit string) or NaN. */
  datatype JsNumber = Finite(n: int) | Infinite | NotANumber

  /** `Number.isFinite(q) ? Math.max(1, q) : 1`. */
  function QuantityToRequest(q: JsNumber): (r: int)
    ensures r >= 1
    ensures q.Finite? && q.n >= 1 ==> r == q.n
    ensures !(q.Finite? && q.n >= 1) ==> r == 1
  {
    if q.Finite? then Max(1, q.n) else 1
  }

  /** The quantity field's `parseInt(value) || 1`: NaN and 0 become 1. */
  function ParsedQty(parsed: JsNumber): (r: JsNumber)
    ensures r != NotANumber && r != Finite(0)
    ensures parsed != NotANumber && parsed != Finite(0) ==> r == parsed
  {
    if parsed == NotANumber || parsed == Finite(0) then Finite(1) else parsed
  }

  /** `trimStart`, with the whitespace test given by the caller. */
  function TrimStart(s: string, isSpace: char -> bool): (r: string)
    ensures |r| <= |s| && r == s[|s| - |r|..]
    ensures r == [] || !isSpace(r[0])
    ensures forall k :: 0 <= k < |s| - |r| ==> isSpace(s[k])
  {
    if s == [] || !isSpace(s[0]) then s else TrimStart(s[1..], isSpace)
  }

  function TrimEnd(s: string, isSpace: char -> bool): (r: string)
    ensures |r| <= |s| && r == s[..|r|]
    ensures r == [] || !isSpace(r[|r| - 1])
    ensures forall k :: |r| <= k < |s| ==> isSpace(s[k])
  {
    if s == [] || !isSpace(s[|s| - 1]) then s else TrimEnd(s[..|s| - 1], isSpace)
  }

  /** `note?.trim() || undefined`: the note without surrounding whitespace,
      absent when nothing else is left. */
  function NoteOf(note: string, isSpace: char -> bool): (r: Option<string>)
    ensures r.Some? ==> r.value != [] && !isSpace(r.value[0]) && !isSpace(r.value[|r.value| - 1])
    ensures r.Some? ==> exists i, j :: 0 <= i <= j <= |note| && r.value == note[i..j] &&
                                       (forall k :: 0 <= k < i ==> isSpace(note[k])) &&
                                       (forall k :: j <= k < |note| ==> isSpace(note[k]))
    ensures r.None? <==> forall k :: 0 <= k < |note| ==> isSpace(note[k])
  {
    var s := TrimStart(note, isSpace);
    var t := TrimEnd(s, isSpace);
    PrefixOfSuffix(note, s, t, isSpace);
    if t == [] then None else Some(t)
  }

  /** A prefix `t` of the suffix `s` of `note` is a slice of `note`, and
      what `t` leaves of `s` is what the slice leaves at the end of `note`. */
  lemma PrefixOfSuffix(note: string, s: string, t: string, isSpace: char -> bool)
    requires |s| <= |note| && s == note[|note| - |s|..]
    requires |t| <= |s| && t == s[..|t|]
    requires forall k :: |t| <= k < |s| ==> isSpace(s[k])
    ensures t == note[|note| - |s|..|note| - |s| + |t|]
    ensures forall k :: |note| - |s| + |t| <= k < |note| ==> isSpace(note[k])
  {
    var i := |note| - |s|;
    forall k | i + |t| <= k < |note| ensures isSpace(note[k]) {
      assert note[k] == s[k - i];
    }
  }

  /** The status change that cancelling or delivering applies: every request
      carrying `id` takes `status`. */
  function SetStatus(requests: seq<FactoryRequest>, id: string, status: RequestStatus): (r: seq<FactoryRequest>)
    ensures |r| == |requests|
    ensures forall k :: 0 <= k < |requests| && requests[k].requestId != id ==> r[k] == requests[k]
    ensures forall k :: 0 <= k < |requests| && requests[k].requestId == id ==> r[k] == requests[k].(status := status)
  {
    seq(|requests|, k requires 0 <= k < |requests| =>
      if requests[k].requestId == id then requests[k].(status := status) else requests[k])
  }

  /** The request `createFactoryRequest` builds from the form: PENDING,
      for the form's product, with the quantity made at least 1 and the
      note trimmed. */
  function NewRequest(requestId: string, t: RequestTarget, qty: JsNumber, createdAt: Instant, eta: Instant,
                      note: string, isSpace: char -> bool): (r: FactoryRequest)
    ensures r.status == Pending && r.requestQuantity >= 1
    ensures r.requestId == requestId && r.productId == t.productId && r.productName == t.productName
    ensures r.createdAt == createdAt && r.etaAt == eta
    ensures qty.Finite? && qty.n >= 1 ==> r.requestQuantity == qty.n
    ensures !(qty.Finite? && qty.n >= 1) ==> r.requestQuantity == 1
    ensures r.note == NoteOf(note, isSpace)
  {
    FactoryRequest(requestId, t.productId, t.productName, QuantityToRequest(qty), createdAt, eta, NoteOf(note, isSpace), Pending)
  }

  predicate DistinctRequestIds(requests: seq<FactoryRequest>) {
    forall i, j :: 0 <= i < j < |requests| ==> requests[i].requestId != requests[j].requestId
  }

  /** The buttons act on a pending request only; with distinct request ids
      the change reaches that request alone, so a delivered or cancelled
      request keeps its status for good, and the ids stay distinct. */
  lemma StatusChangeIsLocal(requests: seq<FactoryRequest>, j: nat, status: RequestStatus)
    requires DistinctRequestIds(requests) && j < |requests|
    ensures var r := SetStatus(requests, requests[j].requestId, status);
            && r[j] == requests[j].(status := status)
            && (forall i :: 0 <= i < |requests| && i != j ==> r[i] == requests[i])
            && DistinctRequestIds(r)
  {
  }

  /** A terminal request is unchanged by any later button press. */
  lemma TerminalIsFinal(requests: seq<FactoryRequest>, j: nat, i: nat, status: RequestStatus)
    requires DistinctRequestIds(requests) && j < |requests| && i < |requests|
    requires requests[j].status == Pending && requests[i].status != Pending
    ensures SetStatus(requests, requests[j].requestId, status)[i] == requests[i]
  {
    assert i != j;
  }

  /** The stock the delivery starts from: the live merged row's stock, or 0
      when the product is not in the table. */
  function LiveStock(products: seq<Product>, inventory: seq<InventoryRecord>, id: string): (r: int)
    ensures FindProduct(products, id).Some? && FindRecord(inventory, id).Some? ==>
      r == FindRecord(inventory, id).value.currentQuantity
    ensures FindProduct(products, id).None? || FindRecord(inventory, id).None? ==> r == 0
  {
    match FindProduct(products, id)
    case None => 0
    case Some(p) => MergeRow(p, inventory).stock
  }

  /** Delivery adds the requested quantity to the stock on record at the
      moment of delivery, and a product without a record gets no stock. */
  lemma DeliveryEffect(products: seq<Product>, inventory: seq<InventoryRecord>, req: FactoryRequest, now: Instant)
    ensures var r := SetStock(inventory, req.productId, LiveStock(products, inventory, req.productId) + req.requestQuantity, now);
            && (FindProduct(products, req.productId).Some? && FindRecord(inventory, req.productId).Some? ==>
                  FindRecord(r, req.productId).Some? &&
                  FindRecord(r, req.productId).value.currentQuantity ==
                  FindRecord(inventory, req.productId).value.currentQuantity + req.requestQuantity)
            && (FindRecord(inventory, req.productId).None? ==> r == inventory)
  {
    var id := req.productId;
    var q := LiveStock(products, inventory, id) + req.requestQuantity;
    SetStockLookup(inventory, id, q, now, id + "'");
  }

  // ------------------------------------------------------------------ screen

  class RestockScreen {
    const store: Store
    /** The requests created on this page, newest first. */
    var requests: seq<FactoryRequest>
    var modalOpen: bool
    var target: Option<RequestTarget>
    var requestQty: JsNumber
    var requestNote: string
    /** The arrival field; absent while it holds text that is not a date. */
    var requestEta: Option<Instant>
    var editingId: Option<string>
    var editValue: int

    /** `defaultEta` is the wall clock plus five minutes. */
    constructor (store: Store, defaultEta: Instant)
      ensures this.store == store && requests == [] && !modalOpen && target.None?
      ensures requestQty == Finite(10) && requestNote == "" && requestEta == Some(defaultEta)
      ensures editingId.None? && editValue == 0
    {
      this.store := store;
      requests := [];
      modalOpen := false;
      target := None;
      requestQty := Finite(10);
      requestNote := "";
      requestEta := Some(defaultEta);
      editingId := None;
      editValue := 0;
    }

    method StartEdit(id: string, current: int)
      modifies this`editingId, this`editValue
      ensures editingId == Some(id) && editValue == current
    {
      editingId := Some(id);
      editValue := current;
    }

    /** Saving an inline edit overrides the stock through the store. */
    method SaveEdit(id: string, now: Instant)
      modifies store`inventory, this`editingId
      ensures store.inventory == SetStock(old(store.inventory), id, editValue, now)
      ensures editingId.None?
    {
      store.UpdateInventory(id, editValue, now);
      editingId := None;
    }

    /** `openRequestModal`: capture the product and suggest a quantity. */
    method OpenRequestModal(productId: string, productName: string, stock: int, threshold: int, defaultEta: Instant)
      modifies this`target, this`requestQty, this`requestNote, this`requestEta, this`modalOpen
      ensures target == Some(RequestTarget(productId, productName, stock, threshold))
      ensures requestQty == Finite(RecommendedQty(stock, threshold)) && requestQty.n >= 1
      ensures requestNote == "" && requestEta == Some(defaultEta) && modalOpen
    {
      target := Some(RequestTarget(productId, productName, stock, threshold));
      var recommended := RecommendedQty(stock, threshold);
      requestQty := Finite(recommended);
      requestNote := "";
      requestEta := Some(defaultEta);
      modalOpen := true;
    }

    /** The row's restock button, disabled unless the row is low. */
    method PressRequestButton(row: MergedRow, defaultEta: Instant)
      modifies this`target, this`requestQty, this`requestNote, this`requestEta, this`modalOpen
      ensures IsLow(row) ==> target == Some(RequestTarget(row.product.productId, row.product.name, row.stock, row.threshold))
      ensures IsLow(row) ==> modalOpen && requestQty == Finite(RecommendedQty(row.stock, row.threshold))
      ensures !IsLow(row) ==> target == old(target) && modalOpen == old(modalOpen) && requestQty == old(requestQty)
      ensures !IsLow(row) ==> requestNote == old(requestNote) && requestEta == old(requestEta)
    {
      if IsLow(row) {
        OpenRequestModal(row.product.productId, row.product.name, row.stock, row.threshold, defaultEta);
      }
    }

    /** Typing in the quantity field. */
    method EnterRequestQty(parsed: JsNumber)
      modifies this`requestQty
      ensures requestQty == ParsedQty(parsed)
    {
      requestQty := ParsedQty(parsed);
    }

    /** Typing in the arrival field; `parsed` is absent for text that is
        not a date. */
    method EnterRequestEta(parsed: Option<Instant>)
      modifies this`requestEta
      ensures requestEta == parsed
    {
      requestEta := parsed;
    }

    method EnterRequestNote(note: string)
      modifies this`requestNote
      ensures requestNote == note
    {
      requestNote := note;
    }

    /** `createFactoryRequest`. Without a target nothing happens. An arrival
        field that is not a date makes `toISOString` throw before any state
        is set, so nothing happens either. Otherwise a PENDING request is
        prepended and the form closes. */
    method CreateFactoryRequest(requestId: string, createdAt: Instant, isSpace: char -> bool)
      modifies this`requests, this`modalOpen, this`target
      ensures old(target).None? || old(requestEta).None? ==>
        requests == old(requests) && modalOpen == old(modalOpen) && target == old(target)
      ensures old(target).Some? && old(requestEta).Some? ==>
        requests == [NewRequest(requestId, old(target).value, old(requestQty), createdAt, old(requestEta).value, old(requestNote), isSpace)] + old(requests)
        && !modalOpen && target.None?
    {
      if target.Some? && requestEta.Some? {
        var newReq := NewRequest(requestId, target.value, requestQty, createdAt, requestEta.value, requestNote, isSpace);
        requests := [newReq] + requests;
        modalOpen := false;
        target := None;
      }
    }

    method CancelFactoryRequest(requestId: string)
      modifies this`requests
      ensures requests == SetStatus(old(requests), requestId, Cancelled)
    {
      requests := SetStatus(requests, requestId, Cancelled);
    }

    /** `markDeliveredAndApplyStock`: the live stock plus the requested
        quantity goes to the store, then the request is marked DELIVERED. */
    method MarkDeliveredAndApplyStock(req: FactoryRequest, now: Instant)
      modifies store`inventory, this`requests
      ensures store.inventory ==
              SetStock(old(store.inventory), req.productId,
                       LiveStock(store.products, old(store.inventory), req.productId) + req.requestQuantity, now)
      ensures requests == SetStatus(old(requests), req.requestId, Delivered)
    {
      var currentStock := LiveStock(store.products, store.inventory, req.productId);
      store.UpdateInventory(req.productId, currentStock + req.requestQuantity, now);
      requests := SetStatus(requests, req.requestId, Delivered);
    }

    /** The deliver button, shown only on a pending request. */
    method PressDeliver(k: nat, now: Instant)
      requires k < |requests|
      modifies store`inventory, this`requests
      ensures old(requests[k].status) != Pending ==> requests == old(requests) && store.inventory == old(store.inventory)
      ensures old(requests[k].status) == Pending ==>
        requests == SetStatus(old(requests), old(requests[k].requestId), Delivered)
      ensures old(requests[k].status) == Pending ==>
        store.inventory ==
        SetStock(old(store.inventory), old(requests[k].productId),
                 LiveStock(store.products, old(store.inventory), old(requests[k].productId)) + old(requests[k].requestQuantity), now)
    {
      if requests[k].status == Pending {
        MarkDeliveredAndApplyStock(requests[k], now);
      }
    }

    /** The cancel button, shown only on a pending request. */
    method PressCancel(k: nat)
      requires k < |requests|
      modifies this`requests
      ensures old(requests[k].status) != Pending ==> requests == old(requests)
      ensures old(requests[k].status) == Pending ==>
        requests == SetStatus(old(requests), old(requests[k].requestId), Cancelled)
    {
      if requests[k].status == Pending {
        CancelFactoryRequest(requests[k].requestId);
      }
    }
  }
}
