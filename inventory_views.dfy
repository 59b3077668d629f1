/**
 * The inventory REST endpoints (backend/src/inventory/rest_views.py): the
 * list filters of the stock, purchase-order, sales-order and movement views,
 * the stock move between locations, and the purchase-order receipt.
 *
 * The ORM tables are sequences held by `InventoryStore`. A `transaction.atomic`
 * block changes the tables only when it completes; an error inside it leaves
 * every table as it was.
 */
module InventoryViews {
  import opened Common
  import opened Json
  import opened InventoryModels

  /** The HTTP answers of these endpoints, with the text of their `error` or `message` member. */
  datatype Reply =
    | Success(message: string)
    | BadRequest(error: string)
    | NotFoundReply
    | ServerError
    | NotImplemented(message: string)

  // ---------------------------------------------------------------------
  // Stock list (`InventoryViewSet.get_queryset`)
  // ---------------------------------------------------------------------

  /** The filter read from the query string; `hideZero` is the parsed flag. */
  datatype InventoryQuery = InventoryQuery(part: Option<string>, warehouse: Option<string>, location: Option<string>, hideZero: bool)

  /** A text filter given as `?x=v`: absent or blank applies nothing, else a case-insensitive substring test. */
  predicate TextFilter(field: Option<string>, q: Option<string>)
  {
    q.None? || q.value == "" || IContains(field, q.value)
  }

  /** Reads the four list parameters; `hide_zero_stock_query` defaults to "false" and is compared case-insensitively. */
  function InventoryQueryOf(ps: seq<Param>): (q: InventoryQuery)
    ensures q.part == QueryGet(ps, "part_number_query")
    ensures q.warehouse == QueryGet(ps, "warehouse_query")
    ensures q.location == QueryGet(ps, "location_query")
    ensures QueryGet(ps, "hide_zero_stock_query").None? ==> !q.hideZero
    ensures QueryGet(ps, "hide_zero_stock_query") == Some("true") ==> q.hideZero
  {
    var flag := QueryGet(ps, "hide_zero_stock_query");
    LowerAsciiAt("false");
    LowerAsciiAt("true");
    InventoryQuery(
      QueryGet(ps, "part_number_query"),
      QueryGet(ps, "warehouse_query"),
      QueryGet(ps, "location_query"),
      LowerAscii(if flag.Some? then flag.value else "false") == "true")
  }

  predicate InventoryListed(inv: Inventory, q: InventoryQuery)
  {
    && TextFilter(inv.partNumber, q.part)
    && TextFilter(inv.warehouse, q.warehouse)
    && TextFilter(inv.location, q.location)
    && (q.hideZero ==> inv.isActive && inv.isAllocatable && inv.quantity > inv.reserved)
  }

  /** The rows of the list; which rows, not their `order_by` order. */
  function InventoryList(rows: seq<Inventory>, q: InventoryQuery): (r: seq<Inventory>)
    ensures forall i :: 0 <= i < |r| ==> r[i] in rows && InventoryListed(r[i], q)
    ensures forall i :: 0 <= i < |rows| && InventoryListed(rows[i], q) ==> rows[i] in r
  {
    Filter(rows, (inv: Inventory) => InventoryListed(inv, q))
  }

  /** With only `hide_zero_stock_query=true`, the list holds exactly the rows with stock available to allocate. */
  lemma HideZeroIsAvailable(rows: seq<Inventory>, q: InventoryQuery, inv: Inventory)
    requires q.hideZero && !TextGiven(q.part) && !TextGiven(q.warehouse) && !TextGiven(q.location)
    ensures inv in InventoryList(rows, q) <==> inv in rows && AvailableQuantity(inv) > 0
  {
    AvailableIffUnreservedStock(inv);
    if inv in rows {
      var i :| 0 <= i < |rows| && rows[i] == inv;
      assert InventoryListed(inv, q) ==> rows[i] in InventoryList(rows, q);
    }
  }

  predicate TextGiven(q: Option<string>) { q.Some? && q.value != "" }

  // ---------------------------------------------------------------------
  // Stock at one location (`by_location`)
  // ---------------------------------------------------------------------

  /** The answer of a list endpoint: a 400 with its `error`, a 500, or the rows. */
  datatype ListReply<T> = ListBadRequest(error: string) | ListServerError | Listed(rows: seq<T>)

  const LocationParamsRequired := "倉庫(warehouse)と棚番(location)は必須のクエリパラメータです。"

  predicate AtLocation(inv: Inventory, warehouse: string, location: string)
  {
    inv.warehouse == Some(warehouse) && inv.location == Some(location) && inv.quantity > 0
  }

  /**
   * Needs a non-blank warehouse and a location, which may be blank; lists the
   * rows there holding stock (which rows, not their `order_by` order).
   */
  function ByLocation(rows: seq<Inventory>, ps: seq<Param>): (r: ListReply<Inventory>)
    ensures r.ListBadRequest? || r.Listed?
    ensures r.ListBadRequest? <==> !TextGiven(QueryGet(ps, "warehouse")) || QueryGet(ps, "location").None?
    ensures r.ListBadRequest? ==> r.error == LocationParamsRequired
    ensures r.Listed? ==> forall i :: 0 <= i < |r.rows| ==>
      (r.rows[i] in rows && AtLocation(r.rows[i], QueryGet(ps, "warehouse").value, QueryGet(ps, "location").value))
    ensures r.Listed? ==> forall i :: 0 <= i < |rows| && AtLocation(rows[i], QueryGet(ps, "warehouse").value, QueryGet(ps, "location").value) ==>
      rows[i] in r.rows
  {
    var w := QueryGet(ps, "warehouse");
    var l := QueryGet(ps, "location");
    if !TextGiven(w) || l.None? then ListBadRequest(LocationParamsRequired)
    else Listed(Filter(rows, (inv: Inventory) => AtLocation(inv, w.value, l.value)))
  }

  /** A blank shelf is a valid location: `?warehouse=W&location=` is answered with a list. */
  lemma BlankLocationAccepted(rows: seq<Inventory>, w: string)
    requires w != ""
    ensures ByLocation(rows, [Param("warehouse", w), Param("location", "")]).Listed?
  {
    var ps := [Param("warehouse", w), Param("location", "")];
    assert ValuesOf(ps, "warehouse") == [w];
    assert ValuesOf(ps, "location") == [""];
  }

  // ---------------------------------------------------------------------
  // Date bounds (`<field>__date__gte` and `<field>__date__lte`)
  // ---------------------------------------------------------------------

  /*
   * A date parameter is read by the framework's date parser, which is not
   * part of this model: `readDate` gives the day number (as `DayOf` counts
   * days) of a text it accepts, and `None` for one it refuses. A refused
   * text raises `ValidationError` when the query is built, which no handler
   * catches (500).
   */

  /** No bound when the parameter is absent or empty; a null time is never within a given bound. */
  predicate FromDay(t: Option<int>, bound: Option<string>, readDate: string -> Option<int>)
  {
    !TextGiven(bound) || (t.Some? && readDate(bound.value).Some? && DayOf(t.value) >= readDate(bound.value).value)
  }

  predicate ToDay(t: Option<int>, bound: Option<string>, readDate: string -> Option<int>)
  {
    !TextGiven(bound) || (t.Some? && readDate(bound.value).Some? && DayOf(t.value) <= readDate(bound.value).value)
  }

  /** Every date parameter among `keys` that is given is one the parser accepts. */
  predicate DatesReadable(ps: seq<Param>, keys: seq<string>, readDate: string -> Option<int>)
  {
    forall k :: k in keys && TextGiven(QueryGet(ps, k)) ==> readDate(QueryGet(ps, k).value).Some?
  }

  // ---------------------------------------------------------------------
  // Purchase-order list (`PurchaseOrderViewSet.get_queryset`)
  // ---------------------------------------------------------------------

  /** The status filter: "received" stands for both received states, anything else is matched exactly. */
  predicate StatusMatches(status: Option<string>, wanted: string)
  {
    if wanted == "received" then status == Some("partially_received") || status == Some("fully_received")
    else status == Some(wanted)
  }

  const PurchaseOrderDateKeys := ["search_order_date_from", "search_order_date_to", "search_expected_arrival_from", "search_expected_arrival_to"]

  predicate PurchaseOrderListed(po: PurchaseOrder, ps: seq<Param>, readDate: string -> Option<int>)
  {
    && TextFilter(po.orderNumber, QueryGet(ps, "search_order_number"))
    && TextFilter(po.shipmentNumber, QueryGet(ps, "search_shipment_number"))
    && TextFilter(po.supplier, QueryGet(ps, "search_supplier"))
    && TextFilter(po.partNumber, QueryGet(ps, "search_part_number"))
    && TextFilter(po.warehouse, QueryGet(ps, "search_warehouse"))
    && (TextGiven(QueryGet(ps, "search_q")) ==> AnyFieldMentions(po, QueryGet(ps, "search_q").value))
    && (TextGiven(QueryGet(ps, "search_item_product_name")) ==>
          (IContains(po.item, QueryGet(ps, "search_item_product_name").value)
           || IContains(po.productName, QueryGet(ps, "search_item_product_name").value)))
    && (TextGiven(QueryGet(ps, "search_status")) ==> StatusMatches(po.status, QueryGet(ps, "search_status").value))
    && FromDay(Some(po.orderDate), QueryGet(ps, "search_order_date_from"), readDate)
    && ToDay(Some(po.orderDate), QueryGet(ps, "search_order_date_to"), readDate)
    && FromDay(po.expectedArrival, QueryGet(ps, "search_expected_arrival_from"), readDate)
    && ToDay(po.expectedArrival, QueryGet(ps, "search_expected_arrival_to"), readDate)
  }

  /** The mobile search box: the text occurs in the order number, part number, product name, supplier or item. */
  predicate AnyFieldMentions(po: PurchaseOrder, text: string)
  {
    IContains(po.orderNumber, text) || IContains(po.partNumber, text) || IContains(po.productName, text)
      || IContains(po.supplier, text) || IContains(po.item, text)
  }

  /** The orders of the list (which orders, not their `order_by` order), or 500 for a date the parser refuses. */
  function PurchaseOrderList(orders: seq<PurchaseOrder>, ps: seq<Param>, readDate: string -> Option<int>): (r: ListReply<PurchaseOrder>)
    ensures r.ListServerError? || r.Listed?
    ensures r.ListServerError? <==> !DatesReadable(ps, PurchaseOrderDateKeys, readDate)
    ensures r.Listed? ==> forall i :: 0 <= i < |r.rows| ==> r.rows[i] in orders && PurchaseOrderListed(r.rows[i], ps, readDate)
    ensures r.Listed? ==> forall i :: 0 <= i < |orders| && PurchaseOrderListed(orders[i], ps, readDate) ==> orders[i] in r.rows
    ensures r.Listed? && TextGiven(QueryGet(ps, "search_status")) && QueryGet(ps, "search_status").value == "received" ==>
      forall i :: 0 <= i < |r.rows| ==> r.rows[i].status == Some("partially_received") || r.rows[i].status == Some("fully_received")
    ensures r.Listed? && TextGiven(QueryGet(ps, "search_status")) && QueryGet(ps, "search_status").value != "received" ==>
      forall i :: 0 <= i < |r.rows| ==> r.rows[i].status == QueryGet(ps, "search_status")
    ensures r.Listed? && TextGiven(QueryGet(ps, "search_expected_arrival_from")) ==>
      forall i :: 0 <= i < |r.rows| ==> r.rows[i].expectedArrival.Some?
  {
    if !DatesReadable(ps, PurchaseOrderDateKeys, readDate) then ListServerError
    else Listed(Filter(orders, (po: PurchaseOrder) => PurchaseOrderListed(po, ps, readDate)))
  }

  // ---------------------------------------------------------------------
  // Sales orders
  // ---------------------------------------------------------------------

  predicate SalesOrderListed(so: SalesOrder, ps: seq<Param>)
  {
    && TextFilter(Some(so.orderNumber), QueryGet(ps, "search_order_number"))
    && TextFilter(so.item, QueryGet(ps, "search_item"))
    && TextFilter(so.warehouse, QueryGet(ps, "search_warehouse"))
    && (TextGiven(QueryGet(ps, "search_status")) ==> so.status == QueryGet(ps, "search_status").value)
  }

  /** The orders of the list: which orders, not their `order_by` order. */
  function SalesOrderList(orders: seq<SalesOrder>, ps: seq<Param>): (r: seq<SalesOrder>)
    ensures forall i :: 0 <= i < |r| ==> r[i] in orders && SalesOrderListed(r[i], ps)
    ensures forall i :: 0 <= i < |orders| && SalesOrderListed(orders[i], ps) ==> orders[i] in r
  {
    Filter(orders, (so: SalesOrder) => SalesOrderListed(so, ps))
  }

  /** `allocate` and `issue` are placeholders: whatever the request, they answer 501 and change nothing. */
  function SalesOrderIssue(data: Record): (r: Reply)
    ensures r.NotImplemented? && !r.Success?
  {
    NotImplemented("Issue action is not fully implemented yet.")
  }

  function SalesOrderAllocate(data: Record): (r: Reply)
    ensures r.NotImplemented? && !r.Success?
  {
    NotImplemented("Allocate action is not fully implemented yet.")
  }

  // ---------------------------------------------------------------------
  // Stock movements (`StockMovementViewSet.get_queryset`)
  // ---------------------------------------------------------------------

  const MovementDateKeys := ["search_movement_date_from", "search_movement_date_to"]

  /** `search_movement_type` may repeat; no value at all applies no type filter. */
  predicate MovementListed(m: StockMovement, ps: seq<Param>, readDate: string -> Option<int>)
  {
    && TextFilter(m.partNumber, QueryGet(ps, "search_part_number"))
    && TextFilter(m.warehouse, QueryGet(ps, "search_warehouse"))
    && TextFilter(m.referenceDocument, QueryGet(ps, "search_reference_document"))
    && TextFilter(m.description, QueryGet(ps, "search_description"))
    && TextFilter(m.operator, QueryGet(ps, "search_operator"))
    && (ValuesOf(ps, "search_movement_type") != [] ==> m.movementType in ValuesOf(ps, "search_movement_type"))
    && QuantityFilter(m, QueryGet(ps, "search_quantity"))
    && FromDay(Some(m.movementDate), QueryGet(ps, "search_movement_date_from"), readDate)
    && ToDay(Some(m.movementDate), QueryGet(ps, "search_movement_date_to"), readDate)
  }

  /** `search_quantity` filters by an exact quantity when it parses as an integer and is ignored otherwise. */
  predicate QuantityFilter(m: StockMovement, q: Option<string>)
  {
    q.None? || q.value == "" || IntegerText(q.value).None? || m.quantity == IntegerText(q.value).value
  }

  /** The movements of the list (which movements, not their `order_by` order), or 500 for a date the parser refuses. */
  function MovementList(ms: seq<StockMovement>, ps: seq<Param>, readDate: string -> Option<int>): (r: ListReply<StockMovement>)
    ensures r.ListServerError? || r.Listed?
    ensures r.ListServerError? <==> !DatesReadable(ps, MovementDateKeys, readDate)
    ensures r.Listed? ==> forall i :: 0 <= i < |r.rows| ==> r.rows[i] in ms && MovementListed(r.rows[i], ps, readDate)
    ensures r.Listed? ==> forall i :: 0 <= i < |ms| && MovementListed(ms[i], ps, readDate) ==> ms[i] in r.rows
  {
    if !DatesReadable(ps, MovementDateKeys, readDate) then ListServerError
    else Listed(Filter(ms, (m: StockMovement) => MovementListed(m, ps, readDate)))
  }

  /** A movement on a day after the `search_movement_date_to` day is never listed. */
  lemma LaterMovementNotListed(m: StockMovement, ps: seq<Param>, readDate: string -> Option<int>)
    requires TextGiven(QueryGet(ps, "search_movement_date_to"))
    requires readDate(QueryGet(ps, "search_movement_date_to").value).Some?
    requires m.movementDate >= (readDate(QueryGet(ps, "search_movement_date_to").value).value + 1) * SecondsPerDay
    ensures !MovementListed(m, ps, readDate)
  {
  }

  /** Selecting no movement type lists movements of every type: the type no longer decides. */
  lemma NoTypeMeansEveryType(m: StockMovement, ps: seq<Param>, t: string, readDate: string -> Option<int>)
    requires forall i :: 0 <= i < |ps| ==> ps[i].key != "search_movement_type"
    ensures MovementListed(m, ps, readDate) <==> MovementListed(m.(movementType := t), ps, readDate)
  {
    ValuesOfEmpty(ps, "search_movement_type");
  }

  // ---------------------------------------------------------------------
  // Lookups
  // ---------------------------------------------------------------------

  /** The first stock row with primary key `pk`. */
  function IndexOfId(rows: seq<Inventory>, pk: nat): (r: Option<nat>)
    ensures r.None? <==> forall i :: 0 <= i < |rows| ==> rows[i].id != pk
    ensures r.Some? ==> r.value < |rows| && rows[r.value].id == pk
  {
    if rows == [] then None
    else if rows[0].id == pk then Some(0)
    else
      var k := IndexOfId(rows[1..], pk);
      if k.None? then None else Some(k.value + 1)
  }

  /** The first purchase order with primary key `pk`. */
  function IndexOfOrder(orders: seq<PurchaseOrder>, pk: string): (r: Option<nat>)
    ensures r.None? <==> forall i :: 0 <= i < |orders| ==> orders[i].id != pk
    ensures r.Some? ==> r.value < |orders| && orders[r.value].id == pk
  {
    if orders == [] then None
    else if orders[0].id == pk then Some(0)
    else
      var k := IndexOfOrder(orders[1..], pk);
      if k.None? then None else Some(k.value + 1)
  }

  /** A row with `q` taken off its quantity. */
  function Debited(rows: seq<Inventory>, i: nat, q: int): (r: seq<Inventory>)
    requires i < |rows|
    ensures |r| == |rows| && r[i].quantity == rows[i].quantity - q
    ensures forall p :: TotalQuantity(r, p) == TotalQuantity(rows, p) - (if p == rows[i].partNumber then q else 0)
  {
    var row := rows[i].(quantity := rows[i].quantity - q);
    assert forall p :: TotalQuantity(rows[i := row], p) == TotalQuantity(rows, p) - (if p == rows[i].partNumber then q else 0) by {
      forall p ensures TotalQuantity(rows[i := row], p) == TotalQuantity(rows, p) - (if p == rows[i].partNumber then q else 0) {
        TotalOfUpdate(rows, i, row, p);
      }
    }
    rows[i := row]
  }

  // ---------------------------------------------------------------------
  // Move (`InventoryViewSet.move`)
  // ---------------------------------------------------------------------

  const InvalidRequestData := "無効なリクエストデータです。"
  const TargetWarehouseRequired := "移動先倉庫は必須です。"
  const MoveQuantityNotPositive := "移動数量は1以上である必要があります。"
  const MoveQuantityTooLarge := "移動数量が現在の在庫数を超えています。"
  const MoveDone := "在庫を正常に移動しました。"

  /** What a move request asks for once it has passed the checks. */
  datatype MovePlan = MoveRejected(error: string) | MoveAccepted(quantity: nat, warehouse: Value, location: Value)

  /**
   * The checks of `move`, in their order: an integer quantity, a truthy
   * target warehouse, a positive quantity, and no more than the source row
   * holds (its whole quantity, reserved or not). `target_location` defaults
   * to the blank shelf.
   */
  function PlanMove(src: Inventory, data: Record): (r: MovePlan)
    ensures PyInt(DataGet(data, "quantity_to_move", Null)).None? ==> r == MoveRejected(InvalidRequestData)
    ensures (PyInt(DataGet(data, "quantity_to_move", Null)).Some? && !ValueTruthy(DataGet(data, "target_warehouse", Null)))
      ==> r == MoveRejected(TargetWarehouseRequired)
    ensures (PyInt(DataGet(data, "quantity_to_move", Null)).Some? && ValueTruthy(DataGet(data, "target_warehouse", Null))
      && PyInt(DataGet(data, "quantity_to_move", Null)).value <= 0)
      ==> r == MoveRejected(MoveQuantityNotPositive)
    ensures (PyInt(DataGet(data, "quantity_to_move", Null)).Some? && ValueTruthy(DataGet(data, "target_warehouse", Null))
      && PyInt(DataGet(data, "quantity_to_move", Null)).value > src.quantity && PyInt(DataGet(data, "quantity_to_move", Null)).value > 0)
      ==> r == MoveRejected(MoveQuantityTooLarge)
    ensures r.MoveAccepted? ==> (0 < r.quantity <= src.quantity && ValueTruthy(r.warehouse))
    ensures r.MoveAccepted? ==> (Some(r.quantity as int) == PyInt(DataGet(data, "quantity_to_move", Null))
      && r.warehouse == DataGet(data, "target_warehouse", Null) && r.location == DataGet(data, "target_location", Str("")))
  {
    var qty := PyInt(DataGet(data, "quantity_to_move", Null));
    var warehouse := DataGet(data, "target_warehouse", Null);
    if qty.None? then MoveRejected(InvalidRequestData)
    else if !ValueTruthy(warehouse) then MoveRejected(TargetWarehouseRequired)
    else if qty.value <= 0 then MoveRejected(MoveQuantityNotPositive)
    else if qty.value > src.quantity then MoveRejected(MoveQuantityTooLarge)
    else MoveAccepted(qty.value, warehouse, DataGet(data, "target_location", Str("")))
  }

  /** A move is accepted exactly when the quantity is an integer in 1..source quantity and a target warehouse is given. */
  lemma MoveAcceptedIff(src: Inventory, data: Record)
    ensures PlanMove(src, data).MoveAccepted? <==>
      (PyInt(DataGet(data, "quantity_to_move", Null)).Some?
       && 0 < PyInt(DataGet(data, "quantity_to_move", Null)).value <= src.quantity
       && ValueTruthy(DataGet(data, "target_warehouse", Null)))
  {
  }

  /** A move may take reserved stock: only the whole quantity bounds it. */
  lemma MoveIgnoresReservation(src: Inventory)
    requires src.quantity > 0 && src.reserved >= src.quantity
    ensures PlanMove(src, map["quantity_to_move" := Num(src.quantity), "target_warehouse" := Str("W")]).MoveAccepted?
  {
  }

  /** The two history rows of a move, dated `now`: out of the source location, into the target one. */
  function MoveMovements(src: Inventory, plan: MovePlan, operator: Option<string>, now: int): (ms: seq<StockMovement>)
    requires plan.MoveAccepted?
    ensures |ms| == 2 && ms[0].movementDate == now && ms[1].movementDate == now
    ensures ms[0].movementType == "outgoing" && ms[0].quantity == plan.quantity
    ensures ms[0].warehouse == src.warehouse && ms[0].location == src.location && ms[0].partNumber == src.partNumber
    ensures ms[1].movementType == "incoming" && ms[1].quantity == plan.quantity
    ensures ms[1].warehouse == StoredText(plan.warehouse) && ms[1].location == StoredText(plan.location) && ms[1].partNumber == src.partNumber
  {
    [ StockMovement(src.partNumber, src.warehouse, src.location, "outgoing", plan.quantity, now,
        Some("棚番移動: " + PyStr(plan.warehouse) + " の " + PyStr(plan.location) + " へ"), None, operator),
      StockMovement(src.partNumber, StoredText(plan.warehouse), StoredText(plan.location), "incoming", plan.quantity, now,
        Some("棚番移動: " + PyText(src.warehouse) + " の " + PyText(src.location) + " から"), None, operator) ]
  }

  // ---------------------------------------------------------------------
  // Receipt (`PurchaseOrderViewSet.process_receipt`)
  // ---------------------------------------------------------------------

  const FieldsMissing := "必須項目が不足しています。"
  const ReceiptQuantityNotPositive := "入庫数量は正の整数である必要があります。"
  const OrderHasNoPart := "この発注には品番が設定されていないため、入庫処理（在庫計上）ができません。"
  const NoReceiptWarehouse := "入庫倉庫が指定されていません。"

  function OverReceipt(remaining: int): string
  {
    "入庫数量が残数量(" + IntToString(remaining) + ")を超えています。"
  }

  /** What a receipt request asks for once it has passed the checks. */
  datatype ReceiptPlan =
    | ReceiptRejected(reply: Reply)
    | ReceiptAccepted(index: nat, quantity: nat, warehouse: string, location: Option<string>)

  /** A non-blank `Strip`ped text, or the fallback: `value or po.field`. */
  function Defaulted(given: string, fallback: Option<string>): (r: Option<string>)
    ensures given != "" ==> r == Some(given)
    ensures given == "" ==> r == fallback
  {
    if given != "" then Some(given) else fallback
  }

  /** `location` and `warehouse` default to "" and must be texts for `.strip()`. */
  predicate ReceiptTextsGiven(data: Record)
  {
    DataGet(data, "location", Str("")).Str? && DataGet(data, "warehouse", Str("")).Str?
  }

  /** Both required members are truthy. */
  predicate ReceiptFieldsGiven(data: Record)
  {
    ValueTruthy(DataGet(data, "purchase_order_id", Null)) && ValueTruthy(DataGet(data, "received_quantity", Null))
  }

  /** `int(received_quantity)` succeeds and is positive. */
  predicate ReceiptQuantityPositive(data: Record)
  {
    PyInt(DataGet(data, "received_quantity", Null)).Some? && PyInt(DataGet(data, "received_quantity", Null)).value > 0
  }

  /** The checks made before the order is read. */
  predicate ReceiptRequestValid(data: Record)
  {
    ReceiptTextsGiven(data) && ReceiptFieldsGiven(data) && ReceiptQuantityPositive(data)
  }

  /** The order `get_object_or_404` looks up. */
  function ReceiptOrder(orders: seq<PurchaseOrder>, data: Record): (k: Option<nat>)
    ensures k.Some? ==> k.value < |orders|
  {
    IndexOfOrder(orders, PyStr(DataGet(data, "purchase_order_id", Null)))
  }

  /** The receiving warehouse: the stripped `warehouse` member, or the order's when that is blank. */
  function ReceiptWarehouse(po: PurchaseOrder, data: Record): Option<string>
    requires ReceiptTextsGiven(data)
  {
    Defaulted(Strip(DataGet(data, "warehouse", Str("")).s), po.warehouse)
  }

  /** The receiving location: the stripped `location` member, or the order's when that is blank. */
  function ReceiptLocation(po: PurchaseOrder, data: Record): Option<string>
    requires ReceiptTextsGiven(data)
  {
    Defaulted(Strip(DataGet(data, "location", Str("")).s), po.location)
  }

  predicate HasPartNumber(po: PurchaseOrder) { po.partNumber.Some? && po.partNumber.value != "" }

  /** The checks made on the order: a part number, a quantity, room for `q`, and a warehouse after defaulting. */
  predicate ReceiptFits(po: PurchaseOrder, q: int, data: Record)
    requires ReceiptTextsGiven(data)
  {
    && HasPartNumber(po) && po.quantity.Some?
    && q <= po.quantity.value - po.receivedQuantity
    && ReceiptWarehouse(po, data).Some? && ReceiptWarehouse(po, data).value != ""
  }

  /**
   * The checks of `process_receipt`, in their order. Non-text `location` or
   * `warehouse` members fail on `.strip()` outside every handler (500). An
   * unknown order raises `Http404`, which the generic handler turns into 500,
   * as does a null order quantity. `ReceiptAcceptance` states that a request
   * is accepted exactly when it passes every check, `ReceiptChecks` what each
   * check answers.
   */
  function PlanReceipt(orders: seq<PurchaseOrder>, data: Record): (r: ReceiptPlan)
    ensures r.ReceiptAccepted? ==> r.index < |orders|
    ensures r.ReceiptAccepted? ==> (
      var po := orders[r.index];
      && r.quantity > 0 && r.warehouse != ""
      && po.quantity.Some? && po.receivedQuantity + r.quantity <= po.quantity.value
      && po.partNumber.Some? && po.partNumber.value != "")
    ensures r.ReceiptRejected? ==> !r.reply.Success?
  {
    if !ReceiptTextsGiven(data) then ReceiptRejected(ServerError)
    else if !ReceiptFieldsGiven(data) then ReceiptRejected(BadRequest(FieldsMissing))
    else if !ReceiptQuantityPositive(data) then ReceiptRejected(BadRequest(ReceiptQuantityNotPositive))
    else
      var q := PyInt(DataGet(data, "received_quantity", Null)).value;
      var k := ReceiptOrder(orders, data);
      if k.None? then ReceiptRejected(ServerError)
      else
        var po := orders[k.value];
        if !HasPartNumber(po) then ReceiptRejected(BadRequest(OrderHasNoPart))
        else if po.quantity.None? then ReceiptRejected(ServerError)
        else
          var remaining := po.quantity.value - po.receivedQuantity;
          if q > remaining then ReceiptRejected(BadRequest(OverReceipt(remaining)))
          else
            var w := ReceiptWarehouse(po, data);
            if w.None? || w.value == "" then ReceiptRejected(BadRequest(NoReceiptWarehouse))
            else ReceiptAccepted(k.value, q, w.value, ReceiptLocation(po, data))
  }

  /**
   * A receipt is accepted exactly when it passes every check, and then it
   * receives the parsed quantity into the order the id names, at the given
   * warehouse and location or, where blank, the order's.
   */
  lemma ReceiptAcceptance(orders: seq<PurchaseOrder>, data: Record)
    ensures PlanReceipt(orders, data).ReceiptAccepted? <==>
      (ReceiptRequestValid(data) && ReceiptOrder(orders, data).Some?
       && ReceiptFits(orders[ReceiptOrder(orders, data).value], PyInt(DataGet(data, "received_quantity", Null)).value, data))
    ensures PlanReceipt(orders, data).ReceiptAccepted? ==> (
      && ReceiptOrder(orders, data) == Some(PlanReceipt(orders, data).index)
      && orders[PlanReceipt(orders, data).index].id == PyStr(DataGet(data, "purchase_order_id", Null))
      && PyInt(DataGet(data, "received_quantity", Null)) == Some(PlanReceipt(orders, data).quantity as int))
    ensures PlanReceipt(orders, data).ReceiptAccepted? ==> (
      var po := orders[PlanReceipt(orders, data).index];
      && ReceiptTextsGiven(data)
      && Some(PlanReceipt(orders, data).warehouse) == ReceiptWarehouse(po, data)
      && PlanReceipt(orders, data).location == ReceiptLocation(po, data))
  {
    var r := PlanReceipt(orders, data);
    if ReceiptRequestValid(data) && ReceiptOrder(orders, data).Some? {
      var k := ReceiptOrder(orders, data).value;
      var po := orders[k];
      var q := PyInt(DataGet(data, "received_quantity", Null)).value;
      if ReceiptFits(po, q, data) {
        assert r == ReceiptAccepted(k, q, ReceiptWarehouse(po, data).value, ReceiptLocation(po, data));
      } else {
        assert r.ReceiptRejected?;
      }
    } else {
      assert r.ReceiptRejected?;
    }
  }

  /**
   * The answer of each check of `process_receipt`, for the requests that
   * pass the checks before it.
   */
  lemma ReceiptChecks(orders: seq<PurchaseOrder>, data: Record)
    ensures !ReceiptTextsGiven(data) ==> PlanReceipt(orders, data) == ReceiptRejected(ServerError)
    ensures ReceiptTextsGiven(data) && !ReceiptFieldsGiven(data) ==> PlanReceipt(orders, data) == ReceiptRejected(BadRequest(FieldsMissing))
    ensures ReceiptTextsGiven(data) && ReceiptFieldsGiven(data) && !ReceiptQuantityPositive(data)
      ==> PlanReceipt(orders, data) == ReceiptRejected(BadRequest(ReceiptQuantityNotPositive))
    ensures ReceiptRequestValid(data) && ReceiptOrder(orders, data).None? ==> PlanReceipt(orders, data) == ReceiptRejected(ServerError)
    ensures ReceiptRequestValid(data) && ReceiptOrder(orders, data).Some? ==> (
      var po := orders[ReceiptOrder(orders, data).value];
      var q := PyInt(DataGet(data, "received_quantity", Null)).value;
      && (!HasPartNumber(po) ==> PlanReceipt(orders, data) == ReceiptRejected(BadRequest(OrderHasNoPart)))
      && (HasPartNumber(po) && po.quantity.None? ==> PlanReceipt(orders, data) == ReceiptRejected(ServerError))
      && ((HasPartNumber(po) && po.quantity.Some? && q > po.quantity.value - po.receivedQuantity)
            ==> PlanReceipt(orders, data) == ReceiptRejected(BadRequest(OverReceipt(po.quantity.value - po.receivedQuantity))))
      && ((HasPartNumber(po) && po.quantity.Some? && q <= po.quantity.value - po.receivedQuantity
           && !(ReceiptWarehouse(po, data).Some? && ReceiptWarehouse(po, data).value != ""))
            ==> PlanReceipt(orders, data) == ReceiptRejected(BadRequest(NoReceiptWarehouse))))
  {
  }

  /** An order id that names no purchase order is answered with 500, never 404. */
  lemma UnknownOrderIsServerError(orders: seq<PurchaseOrder>, data: Record)
    requires DataGet(data, "location", Str("")).Str? && DataGet(data, "warehouse", Str("")).Str?
    requires ValueTruthy(DataGet(data, "purchase_order_id", Null))
    requires PyInt(DataGet(data, "received_quantity", Null)).Some? && PyInt(DataGet(data, "received_quantity", Null)).value > 0
    requires forall i :: 0 <= i < |orders| ==> orders[i].id != PyStr(DataGet(data, "purchase_order_id", Null))
    ensures PlanReceipt(orders, data) == ReceiptRejected(ServerError)
  {
    assert ValueTruthy(DataGet(data, "received_quantity", Null));
  }

  /** The status after a receipt: fully received once the received total reaches the ordered quantity. */
  function ReceivedStatus(received: nat, quantity: nat): (s: string)
    ensures s in PurchaseOrderStatuses
    ensures s == "fully_received" <==> received >= quantity
    ensures s == "partially_received" <==> received < quantity
  {
    if received >= quantity then "fully_received" else "partially_received"
  }

  /** The order after an accepted receipt of `q`: received total and status. */
  function Received(po: PurchaseOrder, q: nat): (r: PurchaseOrder)
    requires po.quantity.Some? && po.receivedQuantity + q <= po.quantity.value
    ensures r == po.(receivedQuantity := r.receivedQuantity, status := r.status)
    ensures r.receivedQuantity == po.receivedQuantity + q
    ensures r.receivedQuantity <= r.quantity.value
    ensures r.status == Some("fully_received") <==> PurchaseRemaining(r) == Some(0)
    ensures r.status == Some("partially_received") <==> PurchaseRemaining(r).value > 0
  {
    var n := po.receivedQuantity + q;
    po.(receivedQuantity := n, status := Some(ReceivedStatus(n, po.quantity.value)))
  }

  /** The history row of a receipt, dated `now`. */
  function ReceiptMovement(po: PurchaseOrder, plan: ReceiptPlan, operator: Option<string>, now: int): (m: StockMovement)
    requires plan.ReceiptAccepted?
    ensures m.movementType == "incoming" && m.quantity == plan.quantity && m.partNumber == po.partNumber
    ensures m.movementDate == now
    ensures m.warehouse == Some(plan.warehouse) && m.location == plan.location
    ensures m.referenceDocument == Some("PO: " + PyText(po.orderNumber))
  {
    StockMovement(po.partNumber, Some(plan.warehouse), plan.location, "incoming", plan.quantity, now,
      Some("発注番号 " + PyText(po.orderNumber) + " の入庫"), Some("PO: " + PyText(po.orderNumber)), operator)
  }

  function ReceiptDone(po: PurchaseOrder): string
  {
    "発注 " + PyText(po.orderNumber) + " の入庫処理が正常に完了しました。"
  }

  // ---------------------------------------------------------------------
  // The tables and the two writing endpoints
  // ---------------------------------------------------------------------

  class InventoryStore {
    var inventories: seq<Inventory>
    var movements: seq<StockMovement>
    var purchaseOrders: seq<PurchaseOrder>
    var receipts: seq<Receipt>

    constructor (inventories: seq<Inventory>, movements: seq<StockMovement>, purchaseOrders: seq<PurchaseOrder>, receipts: seq<Receipt>)
      ensures this.inventories == inventories && this.movements == movements
      ensures this.purchaseOrders == purchaseOrders && this.receipts == receipts
    {
      this.inventories := inventories;
      this.movements := movements;
      this.purchaseOrders := purchaseOrders;
      this.receipts := receipts;
    }

    /**
     * `POST /inventories/{pk}/move/`: takes the quantity off the source row,
     * adds it to the row at the target key (creating it when absent; it may
     * be the source row itself), and records one outgoing and one incoming
     * movement, both dated `now`. A failure inside the atomic block rolls
     * everything back.
     */
    method Move(pk: nat, data: Record, operator: Option<string>, now: int) returns (reply: Reply)
      modifies this
      ensures purchaseOrders == old(purchaseOrders) && receipts == old(receipts)
      ensures !reply.Success? ==> inventories == old(inventories) && movements == old(movements)
      ensures IndexOfId(old(inventories), pk).None? ==> reply == NotFoundReply
      ensures IndexOfId(old(inventories), pk).Some? ==> (
        var src := old(inventories)[IndexOfId(old(inventories), pk).value];
        var plan := PlanMove(src, data);
        && (plan.MoveRejected? ==> reply == BadRequest(plan.error))
        && (reply.Success? ==> (
              && plan.MoveAccepted? && reply.message == MoveDone
              && movements == old(movements) + MoveMovements(src, plan, operator, now)
              && Some(inventories) == AddStock(Debited(old(inventories), IndexOfId(old(inventories), pk).value, plan.quantity),
                   src.partNumber, StoredText(plan.warehouse), StoredText(plan.location), plan.quantity)))
        && (plan.MoveAccepted? ==> (reply.Success? <==>
              AddStock(Debited(old(inventories), IndexOfId(old(inventories), pk).value, plan.quantity),
                src.partNumber, StoredText(plan.warehouse), StoredText(plan.location), plan.quantity).Some?))
        && (plan.MoveAccepted? && !reply.Success? ==> reply == ServerError))
      ensures reply.Success? ==> forall p :: TotalQuantity(inventories, p) == TotalQuantity(old(inventories), p)
    {
      var i := IndexOfId(inventories, pk);
      if i.None? {
        return NotFoundReply;
      }
      var src := inventories[i.value];
      var plan := PlanMove(src, data);
      if plan.MoveRejected? {
        return BadRequest(plan.error);
      }
      var debited := Debited(inventories, i.value, plan.quantity);
      var staged := AddStock(debited, src.partNumber, StoredText(plan.warehouse), StoredText(plan.location), plan.quantity);
      if staged.None? {
        // `get_or_create` found several rows: the transaction is rolled back.
        return ServerError;
      }
      inventories := staged.value;
      movements := movements + MoveMovements(src, plan, operator, now);
      return Success(MoveDone);
    }

    /**
     * `POST /purchase-orders/process-receipt/`: records the receipt, adds the
     * quantity to the stock row at the receiving location, records one
     * incoming movement dated `now` and advances the order's received total
     * and status.
     */
    method ProcessReceipt(data: Record, operator: Option<string>, now: int) returns (reply: Reply)
      modifies this
      ensures !reply.Success? ==> (inventories == old(inventories) && movements == old(movements)
        && purchaseOrders == old(purchaseOrders) && receipts == old(receipts))
      ensures PlanReceipt(old(purchaseOrders), data).ReceiptRejected? ==> reply == PlanReceipt(old(purchaseOrders), data).reply
      ensures PlanReceipt(old(purchaseOrders), data).ReceiptAccepted? ==> (
        var plan := PlanReceipt(old(purchaseOrders), data);
        var po := old(purchaseOrders)[plan.index];
        && (reply.Success? || reply == ServerError)
        && (reply.Success? <==> AddStock(old(inventories), po.partNumber, Some(plan.warehouse), plan.location, plan.quantity).Some?)
        && (reply.Success? ==>
              && reply.message == ReceiptDone(po)
              && receipts == old(receipts) + [Receipt(po.id, plan.quantity, plan.warehouse, plan.location, operator)]
              && movements == old(movements) + [ReceiptMovement(po, plan, operator, now)]
              && purchaseOrders == old(purchaseOrders)[plan.index := Received(po, plan.quantity)]
              && Some(inventories) == AddStock(old(inventories), po.partNumber, Some(plan.warehouse), plan.location, plan.quantity)
              && (forall p :: TotalQuantity(inventories, p) == TotalQuantity(old(inventories), p) + (if p == po.partNumber then plan.quantity else 0))))
    {
      var plan := PlanReceipt(purchaseOrders, data);
      if plan.ReceiptRejected? {
        return plan.reply;
      }
      var po := purchaseOrders[plan.index];
      assert po.quantity.Some? && po.receivedQuantity + plan.quantity <= po.quantity.value;
      var staged := AddStock(inventories, po.partNumber, Some(plan.warehouse), plan.location, plan.quantity);
      if staged.None? {
        // `get_or_create` found several rows: the receipt just created is rolled back too.
        return ServerError;
      }
      receipts := receipts + [Receipt(po.id, plan.quantity, plan.warehouse, plan.location, operator)];
      inventories := staged.value;
      movements := movements + [ReceiptMovement(po, plan, operator, now)];
      purchaseOrders := purchaseOrders[plan.index := Received(po, plan.quantity)];
      reply := Success(ReceiptDone(po));
    }
  }

  /** A move inside one location (target key equal to the source key) leaves every row's quantity as it was. */
  lemma MoveInPlaceIsNoChange(rows: seq<Inventory>, i: nat, q: nat)
    requires i < |rows| && FindRow(rows, rows[i].partNumber, rows[i].warehouse, rows[i].location) == OneRow(i)
    ensures AddStock(Debited(rows, i, q), rows[i].partNumber, rows[i].warehouse, rows[i].location, q) == Some(rows)
  {
    var d := Debited(rows, i, q);
    var p := (inv: Inventory) => AtKey(inv, rows[i].partNumber, rows[i].warehouse, rows[i].location);
    MatchingWhereOfSameKeys(rows, d, p);
    assert FindRow(d, rows[i].partNumber, rows[i].warehouse, rows[i].location) == FindWhere(d, p);
    assert d[i].(quantity := d[i].quantity + q) == rows[i];
    assert d[i := rows[i]] == rows;
  }

  /** Changing only quantities keeps which rows a key filter selects. */
  lemma {:induction false} MatchingWhereOfSameKeys(a: seq<Inventory>, b: seq<Inventory>, p: Inventory -> bool)
    requires |a| == |b|
    requires forall j :: 0 <= j < |a| ==> p(a[j]) == p(b[j])
    ensures MatchingWhere(a, p) == MatchingWhere(b, p)
    decreases |a|
  {
    if a != [] {
      MatchingWhereOfSameKeys(a[..|a| - 1], b[..|b| - 1], p);
    }
  }
}
