/**
 * The validation and field rules of the inventory serializers
 * (backend/src/inventory/serializers.py): the purchase-order number check,
 * and which submitted keys a serializer ignores because they are read-only.
 */
module InventorySerializers {
  import opened Common
  import opened DrfFields
  import opened InventoryModels

  const OrderNumberInUse := "この発注番号は既に使用されています。"

  /**
   * The message of the unique validator that the model serializer derives
   * from `unique=True` on `order_number` (model verbose name "purchase
   * order", field verbose name "発注番号").
   */
  const ModelUniqueMessage := "purchase order with this 発注番号 already exists."

  /** Some purchase order other than the one being updated already carries this number. */
  predicate NumberTaken(orders: seq<PurchaseOrder>, value: string, instanceId: Option<string>)
  {
    exists k :: 0 <= k < |orders| && orders[k].orderNumber == Some(value) && Some(orders[k].id) != instanceId
  }

  /** `validate_order_number`: an empty or null value passes; a number another order uses is refused. */
  function ValidateOrderNumber(value: Option<string>, orders: seq<PurchaseOrder>, instanceId: Option<string>): (r: Option<string>)
    ensures r.Some? <==> value.Some? && value.value != "" && NumberTaken(orders, value.value, instanceId)
    ensures r.Some? ==> r.value == OrderNumberInUse
  {
    if value.None? || value.value == "" then None
    else if NumberTaken(orders, value.value, instanceId) then Some(OrderNumberInUse)
    else None
  }

  /**
   * The errors of the `order_number` field. The field's own run (null and
   * blank allowed, then the model-derived unique validator, which excludes
   * the instance too) comes before `validate_order_number`, which only sees
   * a value that passed it.
   */
  function OrderNumberErrors(value: Option<string>, orders: seq<PurchaseOrder>, instanceId: Option<string>): (e: seq<FieldError>)
    ensures e != [] <==> value.Some? && value.value != "" && NumberTaken(orders, value.value, instanceId)
    ensures e != [] ==> e == [FieldError("order_number", ModelUniqueMessage)]
  {
    if value.Some? && value.value != "" && NumberTaken(orders, value.value, instanceId) then
      [FieldError("order_number", ModelUniqueMessage)]
    else
      var custom := ValidateOrderNumber(value, orders, instanceId);
      match custom
      case Some(m) => [FieldError("order_number", m)]
      case None => []
  }

  /** The hand-written message is never shown: the unique validator refuses exactly the same values first. */
  lemma CustomMessageUnreachable(value: Option<string>, orders: seq<PurchaseOrder>, instanceId: Option<string>)
    ensures FieldError("order_number", OrderNumberInUse) !in OrderNumberErrors(value, orders, instanceId)
  {
  }

  /** Creating an order with a number already in use is refused with an `order_number` error. */
  lemma DuplicateCreateRefused(orders: seq<PurchaseOrder>, k: nat, number: string)
    requires k < |orders| && orders[k].orderNumber == Some(number) && number != ""
    ensures OrderNumberErrors(Some(number), orders, None) != []
    ensures OrderNumberErrors(Some(number), orders, None)[0].field == "order_number"
  {
  }

  /** Updating an order while keeping its own number passes when no other order carries it. */
  lemma OwnNumberKeptOnUpdate(orders: seq<PurchaseOrder>, k: nat)
    requires k < |orders| && orders[k].orderNumber.Some?
    requires forall j :: 0 <= j < |orders| && j != k ==> orders[j].orderNumber != orders[k].orderNumber
    requires forall j :: 0 <= j < |orders| && j != k ==> orders[j].id != orders[k].id
    ensures OrderNumberErrors(orders[k].orderNumber, orders, Some(orders[k].id)) == []
  {
  }

  /** Order numbers are unique among the orders that have a non-empty one. */
  predicate NumbersUnique(orders: seq<PurchaseOrder>)
  {
    forall i, j :: 0 <= i < j < |orders| && orders[i].orderNumber.Some? && orders[i].orderNumber.value != ""
      ==> orders[i].orderNumber != orders[j].orderNumber
  }

  /** A created order whose number passed the check keeps the numbers unique. */
  lemma AcceptedCreateKeepsNumbersUnique(orders: seq<PurchaseOrder>, po: PurchaseOrder)
    requires NumbersUnique(orders)
    requires OrderNumberErrors(po.orderNumber, orders, None) == []
    ensures NumbersUnique(orders + [po])
  {
    var all := orders + [po];
    forall i, j | 0 <= i < j < |all| && all[i].orderNumber.Some? && all[i].orderNumber.value != ""
      ensures all[i].orderNumber != all[j].orderNumber
    {
      if j == |orders| {
        assert all[j] == po;
        if all[i].orderNumber == po.orderNumber {
          assert NumberTaken(orders, po.orderNumber.value, None) by {
            assert orders[i].orderNumber == Some(po.orderNumber.value) && Some(orders[i].id) != None;
          }
        }
      } else {
        assert all[i] == orders[i] && all[j] == orders[j];
      }
    }
  }

  /** The keys of submitted data a serializer keeps: read-only fields are dropped from the input. */
  function Writable<V>(data: map<string, V>, readOnly: set<string>): (w: map<string, V>)
    ensures w.Keys == data.Keys - readOnly
    ensures forall k :: k in w ==> w[k] == data[k]
  {
    map k | k in data && k !in readOnly :: data[k]
  }

  /** `PurchaseOrderSerializer.Meta.read_only_fields` plus the read-only declared fields. */
  const PurchaseOrderReadOnly: set<string> := {"id", "order_date", "received_quantity", "remaining_quantity"}

  /** `SalesOrderSerializer`'s read-only fields. */
  const SalesOrderReadOnly: set<string> := {"id", "order_date", "shipped_quantity", "remaining_quantity", "status", "status_display"}

  /** `InventorySerializer`'s read-only fields. */
  const InventoryReadOnly: set<string> := {"id", "last_updated", "available_quantity"}

  /**
   * A submitted purchase order cannot set its received or remaining
   * quantity, but its `status` is kept: it is not among the read-only
   * fields, although the field list's comment calls it read-only.
   */
  lemma PurchaseOrderWritableKeys(data: map<string, Value>)
    ensures "received_quantity" !in Writable(data, PurchaseOrderReadOnly)
    ensures "remaining_quantity" !in Writable(data, PurchaseOrderReadOnly)
    ensures "status" in data ==> "status" in Writable(data, PurchaseOrderReadOnly)
    ensures "quantity" in data ==> "quantity" in Writable(data, PurchaseOrderReadOnly)
  {
  }

  /** A submitted sales order cannot set its shipped quantity or status. */
  lemma SalesOrderWritableKeys(data: map<string, Value>)
    ensures "shipped_quantity" !in Writable(data, SalesOrderReadOnly)
    ensures "status" !in Writable(data, SalesOrderReadOnly)
    ensures "remaining_quantity" !in Writable(data, SalesOrderReadOnly)
    ensures "quantity" in data ==> "quantity" in Writable(data, SalesOrderReadOnly)
  {
  }

  /** A submitted stock row cannot set its available quantity, which is always derived. */
  lemma InventoryWritableKeys(data: map<string, Value>)
    ensures "available_quantity" !in Writable(data, InventoryReadOnly)
    ensures "reserved" in data ==> "reserved" in Writable(data, InventoryReadOnly)
  {
  }

  import opened Json
}
