/**
 * The records of the `inventory` application (backend/src/inventory/models.py):
 * stock rows, stock movements, purchase orders with their receipts, and
 * sales orders, with the quantities derived from them.
 */
module InventoryModels {
  import opened Common

  /** One stock row: a part at a warehouse location. Primary keys are opaque numbers. */
  datatype Inventory = Inventory(
    id: nat,
    partNumber: Option<string>,
    warehouse: Option<string>,
    quantity: int,
    reserved: int,
    location: Option<string>,
    isActive: bool,
    isAllocatable: bool)

  /** A row created with only its key fields and a quantity: nothing reserved, active, allocatable. */
  function NewInventory(id: nat, partNumber: Option<string>, warehouse: Option<string>, location: Option<string>, quantity: int): (r: Inventory)
    ensures r.id == id && r.partNumber == partNumber && r.warehouse == warehouse && r.location == location
    ensures r.quantity == quantity && r.reserved == 0 && r.isActive && r.isAllocatable
  {
    Inventory(id, partNumber, warehouse, quantity, 0, location, true, true)
  }

  /** `available_quantity`: nothing for an inactive or non-allocatable row, else the unreserved part, never negative. */
  function AvailableQuantity(inv: Inventory): (a: int)
    ensures a >= 0
    ensures !inv.isActive || !inv.isAllocatable ==> a == 0
    ensures inv.isActive && inv.isAllocatable ==> a == (if inv.quantity > inv.reserved then inv.quantity - inv.reserved else 0)
  {
    if !inv.isActive || !inv.isAllocatable then 0
    else if inv.quantity - inv.reserved > 0 then inv.quantity - inv.reserved else 0
  }

  /** With a non-negative reservation, what is available never exceeds what is on hand. */
  lemma AvailableAtMostQuantity(inv: Inventory)
    requires inv.reserved >= 0 && inv.quantity >= 0
    ensures AvailableQuantity(inv) <= inv.quantity
  {
  }

  /** A row has stock to allocate exactly when it is active, allocatable and holds more than is reserved. */
  lemma AvailableIffUnreservedStock(inv: Inventory)
    ensures AvailableQuantity(inv) > 0 <==> inv.isActive && inv.isAllocatable && inv.quantity > inv.reserved
  {
  }

  /** `MOVEMENT_TYPE_CHOICES` keys. */
  const MovementTypes: seq<string> := ["incoming", "outgoing", "used", "PRODUCTION_OUTPUT", "PRODUCTION_REVERSAL", "adjustment"]

  /** A history row; `movementDate` is the time of the movement, in seconds. */
  datatype StockMovement = StockMovement(
    partNumber: Option<string>,
    warehouse: Option<string>,
    location: Option<string>,
    movementType: string,
    quantity: nat,
    movementDate: int,
    description: Option<string>,
    referenceDocument: Option<string>,
    operator: Option<string>)

  /** Purchase-order status keys; "pending" is the default. */
  const PurchaseOrderStatuses: seq<string> := ["pending", "partially_received", "fully_received", "canceled"]

  /** A purchase order; `quantity` and `expectedArrival` are nullable, the two dates are times in seconds. */
  datatype PurchaseOrder = PurchaseOrder(
    id: string,
    orderNumber: Option<string>,
    quantity: Option<nat>,
    receivedQuantity: nat,
    partNumber: Option<string>,
    productName: Option<string>,
    supplier: Option<string>,
    item: Option<string>,
    shipmentNumber: Option<string>,
    orderDate: int,
    expectedArrival: Option<int>,
    warehouse: Option<string>,
    location: Option<string>,
    status: Option<string>)

  /** `remaining_quantity`: quantity − received, unclamped; undefined (`None`) for a null quantity. */
  function PurchaseRemaining(po: PurchaseOrder): (r: Option<int>)
    ensures r.Some? <==> po.quantity.Some?
    ensures r.Some? ==> r.value + po.receivedQuantity == po.quantity.value
  {
    if po.quantity.Some? then Some(po.quantity.value - po.receivedQuantity) else None
  }

  /** Over-receiving is not clamped: the remaining quantity goes negative. */
  lemma PurchaseRemainingUnclamped(po: PurchaseOrder)
    requires po.quantity.Some? && po.receivedQuantity > po.quantity.value
    ensures PurchaseRemaining(po).value < 0
  {
  }

  datatype Receipt = Receipt(
    purchaseOrderId: string,
    receivedQuantity: nat,
    warehouse: string,
    location: Option<string>,
    operator: Option<string>)

  /** Sales-order status keys; "pending" is the default. */
  const SalesOrderStatuses: seq<string> := ["pending", "shipped", "canceled"]

  datatype SalesOrder = SalesOrder(
    id: string,
    orderNumber: string,
    item: Option<string>,
    quantity: nat,
    shippedQuantity: nat,
    warehouse: Option<string>,
    status: string)

  /** `remaining_quantity` of a sales order: quantity − shipped. */
  function SalesRemaining(so: SalesOrder): (r: int)
    ensures r + so.shippedQuantity == so.quantity
  {
    so.quantity - so.shippedQuantity
  }

  /** A new sales order row: nothing shipped, pending. */
  function NewSalesOrder(id: string, orderNumber: string, item: Option<string>, quantity: nat, warehouse: Option<string>): (so: SalesOrder)
    ensures so.shippedQuantity == 0 && so.status == "pending" && SalesRemaining(so) == quantity
    ensures so.id == id && so.orderNumber == orderNumber && so.item == item && so.warehouse == warehouse
  {
    SalesOrder(id, orderNumber, item, quantity, 0, warehouse, "pending")
  }

  // ---------------------------------------------------------------------
  // Stock totals
  // ---------------------------------------------------------------------

  /** The quantity one row contributes to a part's total. */
  function Share(inv: Inventory, part: Option<string>): int
  {
    if inv.partNumber == part then inv.quantity else 0
  }

  /** A part's total quantity over all rows. */
  function TotalQuantity(rows: seq<Inventory>, part: Option<string>): int
  {
    if rows == [] then 0 else TotalQuantity(rows[..|rows| - 1], part) + Share(rows[|rows| - 1], part)
  }

  lemma {:induction false} TotalOfAppend(rows: seq<Inventory>, r: Inventory, part: Option<string>)
    ensures TotalQuantity(rows + [r], part) == TotalQuantity(rows, part) + Share(r, part)
  {
    assert (rows + [r])[..|rows + [r]| - 1] == rows;
  }

  /** Replacing one row changes a part's total by the difference of the two rows' shares. */
  lemma {:induction false} TotalOfUpdate(rows: seq<Inventory>, i: nat, r: Inventory, part: Option<string>)
    requires i < |rows|
    ensures TotalQuantity(rows[i := r], part) == TotalQuantity(rows, part) - Share(rows[i], part) + Share(r, part)
    decreases |rows|
  {
    var last := |rows| - 1;
    assert rows[i := r][..last] == if i == last then rows[..last] else rows[..last][i := r];
    if i < last {
      TotalOfUpdate(rows[..last], i, r, part);
    }
  }

  /** A row stands at the key `(part_number, warehouse, location)`. */
  predicate AtKey(inv: Inventory, part: Option<string>, warehouse: Option<string>, location: Option<string>)
  {
    inv.partNumber == part && inv.warehouse == warehouse && inv.location == location
  }

  /** The indices of the rows satisfying `p`, in order: what a `filter(...)` on the table selects. */
  function MatchingWhere(rows: seq<Inventory>, p: Inventory -> bool): (ix: seq<nat>)
    ensures forall k :: 0 <= k < |ix| ==> (ix[k] < |rows| && p(rows[ix[k]]))
    ensures forall i :: 0 <= i < |rows| && p(rows[i]) ==> i in ix
  {
    if rows == [] then []
    else
      var front := MatchingWhere(rows[..|rows| - 1], p);
      if p(rows[|rows| - 1]) then front + [|rows| - 1] else front
  }

  /** The outcome of `.get(...)` or `get_or_create(...)` on a filter. */
  datatype Lookup = NoRow | OneRow(index: nat) | ManyRows

  /** `.get(...)`: no row, the single matching row, or several (`MultipleObjectsReturned`). */
  function FindWhere(rows: seq<Inventory>, p: Inventory -> bool): (r: Lookup)
    ensures r.NoRow? <==> forall i :: 0 <= i < |rows| ==> !p(rows[i])
    ensures r.OneRow? ==> (r.index < |rows| && p(rows[r.index]))
    ensures r.OneRow? ==> forall i :: 0 <= i < |rows| && p(rows[i]) ==> i == r.index
    ensures forall i, j :: 0 <= i < j < |rows| && p(rows[i]) && p(rows[j]) ==> r.ManyRows?
  {
    var ix := MatchingWhere(rows, p);
    if |ix| == 0 then NoRow
    else if |ix| == 1 then
      assert forall i :: 0 <= i < |rows| && p(rows[i]) ==> i == ix[0];
      OneRow(ix[0])
    else ManyRows
  }

  /** `get_or_create` on the full stock key. */
  function FindRow(rows: seq<Inventory>, part: Option<string>, warehouse: Option<string>, location: Option<string>): (r: Lookup)
    ensures r.NoRow? <==> forall i :: 0 <= i < |rows| ==> !AtKey(rows[i], part, warehouse, location)
    ensures r.OneRow? ==> (r.index < |rows| && AtKey(rows[r.index], part, warehouse, location))
  {
    FindWhere(rows, (inv: Inventory) => AtKey(inv, part, warehouse, location))
  }

  /** A fresh primary key: one above every key in use. */
  function NextId(rows: seq<Inventory>): (id: nat)
    ensures forall i :: 0 <= i < |rows| ==> rows[i].id < id
  {
    if rows == [] then 0
    else
      var front := NextId(rows[..|rows| - 1]);
      if rows[|rows| - 1].id + 1 > front then rows[|rows| - 1].id + 1 else front
  }

  /**
   * `get_or_create(...)` followed by `quantity += q` when the row existed:
   * the staged rows, or `None` when several rows match (the ORM raises).
   */
  function AddStock(rows: seq<Inventory>, part: Option<string>, warehouse: Option<string>, location: Option<string>, q: int): (r: Option<seq<Inventory>>)
    ensures r.None? <==> FindRow(rows, part, warehouse, location).ManyRows?
    ensures r.Some? ==> forall p :: TotalQuantity(r.value, p) == TotalQuantity(rows, p) + (if p == part then q else 0)
  {
    match FindRow(rows, part, warehouse, location)
    case ManyRows => None
    case NoRow =>
      var row := NewInventory(NextId(rows), part, warehouse, location, q);
      assert forall p :: TotalQuantity(rows + [row], p) == TotalQuantity(rows, p) + (if p == part then q else 0) by {
        forall p ensures TotalQuantity(rows + [row], p) == TotalQuantity(rows, p) + (if p == part then q else 0) {
          TotalOfAppend(rows, row, p);
        }
      }
      Some(rows + [row])
    case OneRow(i) =>
      var row := rows[i].(quantity := rows[i].quantity + q);
      assert forall p :: TotalQuantity(rows[i := row], p) == TotalQuantity(rows, p) + (if p == part then q else 0) by {
        forall p ensures TotalQuantity(rows[i := row], p) == TotalQuantity(rows, p) + (if p == part then q else 0) {
          TotalOfUpdate(rows, i, row, p);
        }
      }
      Some(rows[i := row])
  }

  /** `str(x)` of a nullable text field inside an f-string. */
  function PyText(s: Option<string>): (t: string)
    ensures s.Some? ==> t == s.value
    ensures s.None? ==> t == "None"
  {
    if s.Some? then s.value else "None"
  }
}
