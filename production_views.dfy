/**
 * The production-plan endpoints (backend/src/production/rest_views.py): the
 * plan list filter, the parts a plan needs with the stock available for
 * them, the all-or-nothing material allocation, and the progress update with
 * its finished-goods stock adjustments at the `FG-MAIN` warehouse.
 *
 * The records follow backend/src/production/models.py; times are abstract
 * integer instants and `None` stands for a NULL column.
 */
module ProductionViews {
  import opened Common
  import opened Json
  import opened InventoryModels
  import opened InventoryViews

  const PlanStatuses: seq<string> := ["PENDING", "IN_PROGRESS", "COMPLETED", "ON_HOLD", "CANCELLED"]
  const ProgressStatuses: seq<string> := ["NOT_STARTED", "IN_PROGRESS", "COMPLETED", "PAUSED"]

  const Completed := "COMPLETED"
  const InProgress := "IN_PROGRESS"
  const NotStarted := "NOT_STARTED"
  const AllocatedStatus := "ALLOCATED"

  /** Where finished goods are booked. */
  const FinishedGoodsWarehouse := "FG-MAIN"

  /** The one work-progress row a progress update keeps per plan. */
  const OverallStep := "Overall Plan Progress"

  /** A production plan; the times are in seconds. */
  datatype ProductionPlan = ProductionPlan(
    id: string,
    planName: string,
    productCode: string,
    reference: Option<string>,
    plannedQuantity: nat,
    plannedStart: int,
    actualStart: Option<int>,
    actualEnd: Option<int>,
    status: string)

  /** A parts-used row, linked to plans by the text of their `production_plan` reference. */
  datatype PartsUsed = PartsUsed(plan: string, partCode: string, warehouse: Option<string>, quantityUsed: nat)

  datatype MaterialAllocation = MaterialAllocation(id: string, planId: string, materialCode: string, allocatedQuantity: nat, status: string)

  datatype WorkProgress = WorkProgress(
    planId: string,
    processStep: string,
    operator: Option<string>,
    start: Option<int>,
    end: Option<int>,
    quantityCompleted: nat,
    actualReported: Option<nat>,
    defectiveReported: Option<nat>,
    status: string)

  // ---------------------------------------------------------------------
  // Plan list (`ProductionPlanViewSet.get_queryset`)
  // ---------------------------------------------------------------------

  /** The stripped, non-blank pieces of comma-separated pieces, in order. */
  function StrippedNonBlank(pieces: seq<string>): (r: seq<string>)
    ensures |r| <= |pieces|
    ensures forall k :: 0 <= k < |r| ==> r[k] != ""
  {
    if pieces == [] then []
    else
      var rest := StrippedNonBlank(pieces[1..]);
      var t := Strip(pieces[0]);
      if t == "" then rest else [t] + rest
  }

  /** Every non-blank stripped piece is kept, and nothing else is. */
  lemma {:induction false} StrippedNonBlankMembers(pieces: seq<string>, t: string)
    ensures t in StrippedNonBlank(pieces) <==> t != "" && exists j | 0 <= j < |pieces| :: Strip(pieces[j]) == t
  {
    if pieces != [] {
      var head := Strip(pieces[0]);
      var rest := StrippedNonBlank(pieces[1..]);
      assert StrippedNonBlank(pieces) == if head == "" then rest else [head] + rest;
      StrippedNonBlankMembers(pieces[1..], t);
      SomePieceStripsTo(pieces, t);
    }
  }

  /** A piece strips to `t` exactly when the first one does or one of the others does. */
  lemma SomePieceStripsTo(pieces: seq<string>, t: string)
    requires pieces != []
    ensures (exists j | 0 <= j < |pieces| :: Strip(pieces[j]) == t)
        <==> Strip(pieces[0]) == t || exists j | 0 <= j < |pieces[1..]| :: Strip(pieces[1..][j]) == t
  {
    if exists j | 0 <= j < |pieces[1..]| :: Strip(pieces[1..][j]) == t {
      var j :| 0 <= j < |pieces[1..]| && Strip(pieces[1..][j]) == t;
      assert Strip(pieces[j + 1]) == t;
    }
    if exists j | 0 <= j < |pieces| :: Strip(pieces[j]) == t {
      var j :| 0 <= j < |pieces| && Strip(pieces[j]) == t;
      if j > 0 {
        assert Strip(pieces[1..][j - 1]) == t;
      }
    }
  }

  lemma {:induction false} StrippedNonBlankKeepsAbsent(pieces: seq<string>, c: char)
    requires forall j :: 0 <= j < |pieces| ==> c !in pieces[j]
    ensures forall k :: 0 <= k < |StrippedNonBlank(pieces)| ==> c !in StrippedNonBlank(pieces)[k]
  {
    if pieces != [] {
      StripKeepsAbsent(pieces[0], c);
      StrippedNonBlankKeepsAbsent(pieces[1..], c);
    }
  }

  /** `status__in`: split on commas, each value stripped, blanks dropped. */
  function StatusList(s: string): (r: seq<string>)
    ensures forall k :: 0 <= k < |r| ==> r[k] != "" && ',' !in r[k]
  {
    StrippedNonBlankKeepsAbsent(SplitOn(s, ','), ',');
    StrippedNonBlank(SplitOn(s, ','))
  }

  /** A parameter made of blanks and commas only selects no status, so no status filter applies. */
  lemma BlankStatusListIsNoFilter()
    ensures StatusList(" , ") == []
  {
    assert SplitOn("", ',') == [""];
    assert " "[1..] == "" && ", "[1..] == " " && " , "[1..] == ", ";
    assert " "[0] == ' ' && [' '] + "" == " ";
    assert SplitOn(" ", ',') == [" "];
    assert SplitOn(", ", ',') == ["", " "];
    assert SplitOn(" , ", ',') == [" ", " "];
    StripEmptyIff(" ");
    assert StrippedNonBlank([" "]) == [];
  }

  /*
   * `planned_start_datetime_after` and `_before` are read by the framework's
   * `parse_datetime`, which is not part of this model: `readDateTime` gives
   * the time (in seconds) of a text it accepts and `None` for one it does
   * not, and a bound it does not accept is not applied.
   */

  /** A start-time bound: applied only when the parameter is given and parses. */
  predicate StartBound(start: int, bound: Option<string>, readDateTime: string -> Option<int>, after: bool)
  {
    !TextGiven(bound) || readDateTime(bound.value).None?
    || (if after then start >= readDateTime(bound.value).value else start <= readDateTime(bound.value).value)
  }

  predicate PlanListed(plan: ProductionPlan, ps: seq<Param>, readDateTime: string -> Option<int>)
  {
    && TextFilter(Some(plan.planName), QueryGet(ps, "plan_name"))
    && TextFilter(Some(plan.productCode), QueryGet(ps, "product_code"))
    && (QueryGet(ps, "status__in").Some? && StatusList(QueryGet(ps, "status__in").value) != [] ==>
          plan.status in StatusList(QueryGet(ps, "status__in").value))
    && TextFilter(plan.reference, QueryGet(ps, "production_plan_ref"))
    && StartBound(plan.plannedStart, QueryGet(ps, "planned_start_datetime_after"), readDateTime, true)
    && StartBound(plan.plannedStart, QueryGet(ps, "planned_start_datetime_before"), readDateTime, false)
  }

  /** The plans of the list: which plans, not the order the `OrderingFilter` puts them in. */
  function PlanList(plans: seq<ProductionPlan>, ps: seq<Param>, readDateTime: string -> Option<int>): (r: seq<ProductionPlan>)
    ensures forall i :: 0 <= i < |r| ==> r[i] in plans && PlanListed(r[i], ps, readDateTime)
    ensures forall i :: 0 <= i < |plans| && PlanListed(plans[i], ps, readDateTime) ==> plans[i] in r
  {
    Filter(plans, (p: ProductionPlan) => PlanListed(p, ps, readDateTime))
  }

  /** A plan that starts before a `planned_start_datetime_after` bound the parser reads is never listed. */
  lemma EarlierPlanNotListed(plan: ProductionPlan, ps: seq<Param>, readDateTime: string -> Option<int>)
    requires TextGiven(QueryGet(ps, "planned_start_datetime_after"))
    requires readDateTime(QueryGet(ps, "planned_start_datetime_after").value).Some?
    requires plan.plannedStart < readDateTime(QueryGet(ps, "planned_start_datetime_after").value).value
    ensures plan !in PlanList([plan], ps, readDateTime)
  {
  }

  /** With one status listed, the list holds exactly the plans in that status (the other filters absent). */
  lemma SingleStatusSelects(plan: ProductionPlan, s: string, readDateTime: string -> Option<int>)
    requires s != "" && ',' !in s && Strip(s) == s
    ensures PlanListed(plan, [Param("status__in", s)], readDateTime) <==> plan.status == s
  {
    var ps := [Param("status__in", s)];
    assert ValuesOf(ps, "status__in") == [s];
    assert SplitOn(s, ',') == [s] by {
      SplitOnAbsent(s, ',');
    }
    assert StatusList(s) == [s];
  }

  // ---------------------------------------------------------------------
  // Required parts (`required_parts`)
  // ---------------------------------------------------------------------

  /** A stock row counted for a part: active, allocatable, and in the given warehouse when one is given. */
  predicate CountsFor(inv: Inventory, part: string, warehouse: Option<string>)
  {
    inv.partNumber == Some(part) && inv.isActive && inv.isAllocatable
    && (warehouse.Some? && warehouse.value != "" ==> inv.warehouse == warehouse)
  }

  /** The available quantity summed over the counted rows. */
  function AvailableTotal(rows: seq<Inventory>, part: string, warehouse: Option<string>): int
  {
    if rows == [] then 0
    else
      AvailableTotal(rows[..|rows| - 1], part, warehouse)
      + (if CountsFor(rows[|rows| - 1], part, warehouse) then AvailableQuantity(rows[|rows| - 1]) else 0)
  }

  lemma {:induction false} AvailableTotalNonNegative(rows: seq<Inventory>, part: string, warehouse: Option<string>)
    ensures AvailableTotal(rows, part, warehouse) >= 0
  {
    if rows != [] {
      AvailableTotalNonNegative(rows[..|rows| - 1], part, warehouse);
    }
  }

  /** No counted row gives 0, as the `DoesNotExist` branch does. */
  lemma {:induction false} AvailableTotalOfNone(rows: seq<Inventory>, part: string, warehouse: Option<string>)
    requires forall i :: 0 <= i < |rows| ==> !CountsFor(rows[i], part, warehouse)
    ensures AvailableTotal(rows, part, warehouse) == 0
  {
    if rows != [] {
      AvailableTotalOfNone(rows[..|rows| - 1], part, warehouse);
    }
  }

  /** A single counted row gives its own available quantity, as the `.get(...)` branch does. */
  lemma {:induction false} AvailableTotalOfOne(rows: seq<Inventory>, part: string, warehouse: Option<string>, k: nat)
    requires k < |rows| && CountsFor(rows[k], part, warehouse)
    requires forall i :: 0 <= i < |rows| && i != k ==> !CountsFor(rows[i], part, warehouse)
    ensures AvailableTotal(rows, part, warehouse) == AvailableQuantity(rows[k])
  {
    var front := rows[..|rows| - 1];
    if k == |rows| - 1 {
      AvailableTotalOfNone(front, part, warehouse);
    } else {
      AvailableTotalOfOne(front, part, warehouse, k);
    }
  }

  /** The loop of `required_parts` adding up what is available. */
  method SumAvailable(rows: seq<Inventory>, part: string, warehouse: Option<string>) returns (total: int)
    ensures total == AvailableTotal(rows, part, warehouse)
    ensures total >= 0
  {
    total := 0;
    var i := 0;
    while i < |rows|
      invariant 0 <= i <= |rows|
      invariant total == AvailableTotal(rows[..i], part, warehouse)
    {
      if CountsFor(rows[i], part, warehouse) {
        total := total + AvailableQuantity(rows[i]);
      }
      assert rows[..i + 1][..i] == rows[..i];
      i := i + 1;
    }
    assert rows[..|rows|] == rows;
    AvailableTotalNonNegative(rows, part, warehouse);
  }

  /** The quantity already allocated to a plan for a material; an empty sum is 0. */
  function AllocatedTotal(allocations: seq<MaterialAllocation>, planId: string, part: string): nat
  {
    if allocations == [] then 0
    else
      var a := allocations[|allocations| - 1];
      AllocatedTotal(allocations[..|allocations| - 1], planId, part)
      + (if a.planId == planId && a.materialCode == part then a.allocatedQuantity else 0)
  }

  datatype RequiredPart = RequiredPart(
    partCode: string,
    requiredQuantity: nat,
    inventoryQuantity: int,
    warehouse: Option<string>,
    alreadyAllocated: nat)

  /** The row of one parts-used entry. */
  function RequiredPartFor(used: PartsUsed, rows: seq<Inventory>, allocations: seq<MaterialAllocation>, planId: string): (r: RequiredPart)
    ensures r.partCode == used.partCode && r.requiredQuantity == used.quantityUsed && r.warehouse == used.warehouse
  {
    RequiredPart(used.partCode, used.quantityUsed, AvailableTotal(rows, used.partCode, used.warehouse), used.warehouse,
      AllocatedTotal(allocations, planId, used.partCode))
  }

  function PartsOfPlan(partsUsed: seq<PartsUsed>, reference: string): (r: seq<PartsUsed>)
    ensures forall i :: 0 <= i < |r| ==> r[i] in partsUsed && r[i].plan == reference
    ensures forall i :: 0 <= i < |partsUsed| && partsUsed[i].plan == reference ==> partsUsed[i] in r
  {
    Filter(partsUsed, (u: PartsUsed) => u.plan == reference)
  }

  datatype RequiredReply = NoReference | NoPartsUsed | Parts(parts: seq<RequiredPart>)

  /**
   * `GET /production-plans/{pk}/required-parts/`: 404 without a reference or
   * when no parts-used row carries it; otherwise one row per parts-used entry.
   */
  method RequiredParts(plan: ProductionPlan, partsUsed: seq<PartsUsed>, rows: seq<Inventory>, allocations: seq<MaterialAllocation>)
    returns (r: RequiredReply)
    ensures r.NoReference? <==> plan.reference.None? || plan.reference.value == ""
    ensures r.NoPartsUsed? <==> (plan.reference.Some? && plan.reference.value != ""
      && forall i :: 0 <= i < |partsUsed| ==> partsUsed[i].plan != plan.reference.value)
    ensures r.Parts? ==> (
      var used := PartsOfPlan(partsUsed, plan.reference.value);
      && |r.parts| == |used| > 0
      && forall k :: 0 <= k < |used| ==> r.parts[k] == RequiredPartFor(used[k], rows, allocations, plan.id))
    ensures r.Parts? ==> forall k :: 0 <= k < |r.parts| ==> r.parts[k].inventoryQuantity >= 0
  {
    if plan.reference.None? || plan.reference.value == "" {
      return NoReference;
    }
    var used := PartsOfPlan(partsUsed, plan.reference.value);
    if used == [] {
      return NoPartsUsed;
    }
    assert used[0] in partsUsed;
    var w :| 0 <= w < |partsUsed| && partsUsed[w] == used[0];
    var out: seq<RequiredPart> := [];
    for k := 0 to |used|
      invariant |out| == k
      invariant forall j :: 0 <= j < k ==> out[j] == RequiredPartFor(used[j], rows, allocations, plan.id)
      invariant forall j :: 0 <= j < k ==> out[j].inventoryQuantity >= 0
    {
      var stock := SumAvailable(rows, used[k].partCode, used[k].warehouse);
      out := out + [RequiredPart(used[k].partCode, used[k].quantityUsed, stock, used[k].warehouse,
        AllocatedTotal(allocations, plan.id, used[k].partCode))];
    }
    return Parts(out);
  }

  // ---------------------------------------------------------------------
  // Material allocation (`allocate_materials`)
  // ---------------------------------------------------------------------

  /** The reasons an allocation item is refused; each becomes one entry of `details`. */
  datatype AllocationError =
    | MissingData(item: Record)
    | NegativeQuantity(part: string)
    | InvalidQuantity(part: string)
    | InventoryNotFound(part: string, warehouse: string)
    | NotAllocatable(part: string, warehouse: string)
    | Insufficient(part: string, warehouse: string, required: int, available: int)

  /** What one allocation item does. `ItemAbort` is `MultipleObjectsReturned`, which no handler in the loop catches. */
  datatype ItemStep =
    | ItemError(error: AllocationError)
    | ItemSkipped
    | ItemAbort
    | ItemReserve(index: nat, quantity: nat)

  /** The stock rows of a part in a warehouse, whatever their location. */
  predicate InWarehouse(inv: Inventory, part: Value, warehouse: Value)
  {
    inv.partNumber == StoredText(part) && inv.warehouse == StoredText(warehouse)
  }

  /** `Inventory.objects.get(part_number=…, warehouse=…)`: no row, the one row, or several. */
  function WarehouseRows(rows: seq<Inventory>, part: Value, warehouse: Value): (r: Lookup)
    ensures r.NoRow? <==> forall i :: 0 <= i < |rows| ==> !InWarehouse(rows[i], part, warehouse)
    ensures r.OneRow? ==> r.index < |rows| && InWarehouse(rows[r.index], part, warehouse)
    ensures forall i, j :: 0 <= i < j < |rows| && InWarehouse(rows[i], part, warehouse) && InWarehouse(rows[j], part, warehouse) ==> r.ManyRows?
  {
    FindWhere(rows, (inv: Inventory) => InWarehouse(inv, part, warehouse))
  }

  /** The checks of one item, in their order, against the stock as reserved so far. */
  function AllocationStep(rows: seq<Inventory>, item: Record): (r: ItemStep)
    ensures r.ItemReserve? ==> (r.index < |rows| && r.quantity > 0
      && rows[r.index].isActive && rows[r.index].isAllocatable
      && AvailableQuantity(rows[r.index]) >= r.quantity
      && InWarehouse(rows[r.index], DataGet(item, "part_number", Null), DataGet(item, "warehouse", Null))
      && Some(r.quantity as int) == PyInt(DataGet(item, "quantity_to_allocate", Null)))
    ensures r.ItemSkipped? <==> (
      && ValueTruthy(DataGet(item, "part_number", Null)) && ValueTruthy(DataGet(item, "warehouse", Null))
      && PyInt(DataGet(item, "quantity_to_allocate", Null)) == Some(0))
    ensures var part, warehouse, qv :=
        DataGet(item, "part_number", Null), DataGet(item, "warehouse", Null), DataGet(item, "quantity_to_allocate", Null);
      var present := ValueTruthy(part) && ValueTruthy(warehouse) && !qv.Null?;
      var q := PyInt(qv);
      var wanted := present && q.Some? && q.value > 0;
      var found := WarehouseRows(rows, part, warehouse);
      && (r == ItemError(MissingData(item)) <==> !present)
      && (r == ItemError(InvalidQuantity(PyStr(part))) <==> present && q.None?)
      && (r == ItemError(NegativeQuantity(PyStr(part))) <==> present && q.Some? && q.value < 0)
      && (r == ItemError(InventoryNotFound(PyStr(part), PyStr(warehouse))) <==> wanted && found.NoRow?)
      && (r.ItemAbort? <==> wanted && found.ManyRows?)
      && (r == ItemError(NotAllocatable(PyStr(part), PyStr(warehouse))) <==>
            wanted && found.OneRow? && !(rows[found.index].isActive && rows[found.index].isAllocatable))
      && (r.ItemError? && r.error.Insufficient? <==>
            wanted && found.OneRow? && rows[found.index].isActive && rows[found.index].isAllocatable
            && AvailableQuantity(rows[found.index]) < q.value)
      && (r.ItemReserve? <==>
            wanted && found.OneRow? && rows[found.index].isActive && rows[found.index].isAllocatable
            && AvailableQuantity(rows[found.index]) >= q.value)
      && (r.ItemReserve? ==> r.index == found.index && r.quantity == q.value)
  {
    var part := DataGet(item, "part_number", Null);
    var warehouse := DataGet(item, "warehouse", Null);
    var qv := DataGet(item, "quantity_to_allocate", Null);
    if !(ValueTruthy(part) && ValueTruthy(warehouse) && !qv.Null?) then ItemError(MissingData(item))
    else
      var q := PyInt(qv);
      if q.None? then ItemError(InvalidQuantity(PyStr(part)))
      else if q.value < 0 then ItemError(NegativeQuantity(PyStr(part)))
      else if q.value == 0 then ItemSkipped
      else
        match WarehouseRows(rows, part, warehouse)
        case NoRow => ItemError(InventoryNotFound(PyStr(part), PyStr(warehouse)))
        case ManyRows => ItemAbort
        case OneRow(i) =>
          if !rows[i].isActive || !rows[i].isAllocatable then ItemError(NotAllocatable(PyStr(part), PyStr(warehouse)))
          else if AvailableQuantity(rows[i]) < q.value then
            ItemError(Insufficient(PyStr(part), PyStr(warehouse), q.value, AvailableQuantity(rows[i])))
          else ItemReserve(i, q.value)
  }

  /** A part stored on two shelves of the same warehouse aborts the whole allocation. */
  lemma TwoShelvesAbort(rows: seq<Inventory>, item: Record, i: nat, j: nat)
    requires i < j < |rows|
    requires InWarehouse(rows[i], DataGet(item, "part_number", Null), DataGet(item, "warehouse", Null))
    requires InWarehouse(rows[j], DataGet(item, "part_number", Null), DataGet(item, "warehouse", Null))
    requires ValueTruthy(DataGet(item, "part_number", Null)) && ValueTruthy(DataGet(item, "warehouse", Null))
    requires PyInt(DataGet(item, "quantity_to_allocate", Null)).Some? && PyInt(DataGet(item, "quantity_to_allocate", Null)).value > 0
    ensures AllocationStep(rows, item) == ItemAbort
  {
    assert WarehouseRows(rows, DataGet(item, "part_number", Null), DataGet(item, "warehouse", Null)).ManyRows?;
  }

  /** The reserved quantity summed over all rows. */
  function TotalReserved(rows: seq<Inventory>): int
  {
    if rows == [] then 0 else TotalReserved(rows[..|rows| - 1]) + rows[|rows| - 1].reserved
  }

  lemma {:induction false} TotalReservedOfUpdate(rows: seq<Inventory>, i: nat, r: Inventory)
    requires i < |rows|
    ensures TotalReserved(rows[i := r]) == TotalReserved(rows) - rows[i].reserved + r.reserved
    decreases |rows|
  {
    var last := |rows| - 1;
    assert rows[i := r][..last] == if i == last then rows[..last] else rows[..last][i := r];
    if i < last {
      TotalReservedOfUpdate(rows[..last], i, r);
    }
  }

  function TotalAllocated(allocations: seq<MaterialAllocation>): nat
  {
    if allocations == [] then 0 else TotalAllocated(allocations[..|allocations| - 1]) + allocations[|allocations| - 1].allocatedQuantity
  }

  lemma TotalAllocatedOfAppend(allocations: seq<MaterialAllocation>, a: MaterialAllocation)
    ensures TotalAllocated(allocations + [a]) == TotalAllocated(allocations) + a.allocatedQuantity
  {
    assert (allocations + [a])[..|allocations + [a]| - 1] == allocations;
  }

  /** The first `n` characters of `s`, as `s[:n]`. */
  function Take(s: string, n: nat): (r: string)
    ensures |r| <= n && |r| <= |s| && r == s[..|r|]
    ensures |s| >= n ==> |r| == n
  {
    if |s| <= n then s else s[..n]
  }

  /** The internal sales-order number of an allocation: "INT-" and the first 15 hex digits of its id. */
  function InternalOrderNumber(allocationHex: string): (n: string)
    ensures 4 <= |n| <= 19 && n[..4] == "INT-"
  {
    "INT-" + Take(allocationHex, 15)
  }

  predicate HasOrderNumber(orders: seq<SalesOrder>, number: string)
  {
    exists j :: 0 <= j < |orders| && orders[j].orderNumber == number
  }

  /**
   * Staged rows against the rows before the request: only reservations
   * differ, none went down, and a row whose reservation grew does not
   * reserve more than it holds.
   */
  predicate ReservedWithin(rows: seq<Inventory>, staged: seq<Inventory>)
  {
    && |rows| == |staged|
    && (forall j :: 0 <= j < |rows| ==> staged[j] == rows[j].(reserved := staged[j].reserved))
    && (forall j :: 0 <= j < |rows| ==> staged[j].reserved >= rows[j].reserved)
    && (forall j :: 0 <= j < |rows| && staged[j].reserved > rows[j].reserved ==> staged[j].reserved <= staged[j].quantity)
  }

  /** Reserving what a row has available keeps the staged rows within bounds. */
  lemma ReserveKeepsWithin(rows: seq<Inventory>, staged: seq<Inventory>, i: nat, q: nat)
    requires ReservedWithin(rows, staged)
    requires i < |staged| && q > 0 && AvailableQuantity(staged[i]) >= q
    ensures ReservedWithin(rows, staged[i := staged[i].(reserved := staged[i].reserved + q)])
  {
  }

  /** The staged tables and the outcome of the allocation loop. */
  datatype AllocationStage = AllocationStage(
    staged: seq<Inventory>,
    created: seq<MaterialAllocation>,
    orders: seq<SalesOrder>,
    errors: seq<AllocationError>,
    aborted: bool)

  /** One reservation: the row, the allocation record and, unless its number exists, the internal sales order. */
  function Reserve(st: AllocationStage, planId: string, item: Record, i: nat, q: nat, ids: nat -> string): (r: AllocationStage)
    requires i < |st.staged|
    ensures r.staged == st.staged[i := st.staged[i].(reserved := st.staged[i].reserved + q)]
    ensures r.created == st.created + [MaterialAllocation(ids(2 * |st.created|), planId, PyStr(DataGet(item, "part_number", Null)), q, AllocatedStatus)]
    ensures |st.orders| <= |r.orders| <= |st.orders| + 1 && r.orders[..|st.orders|] == st.orders
    ensures r.errors == st.errors && r.aborted == st.aborted
  {
    var part := PyStr(DataGet(item, "part_number", Null));
    var a := MaterialAllocation(ids(2 * |st.created|), planId, part, q, AllocatedStatus);
    var number := InternalOrderNumber(a.id);
    var orders := if HasOrderNumber(st.orders, number) then st.orders
      else st.orders + [NewSalesOrder(ids(2 * |st.created| + 1), number, Some(part), q, StoredText(DataGet(item, "warehouse", Null)))];
    assert orders[..|st.orders|] == st.orders;
    AllocationStage(st.staged[i := st.staged[i].(reserved := st.staged[i].reserved + q)], st.created + [a], orders, st.errors, st.aborted)
  }

  /** What the allocation loop keeps true of its staged tables. */
  predicate StageWithin(rows: seq<Inventory>, orders: seq<SalesOrder>, planId: string, st: AllocationStage)
  {
    && ReservedWithin(rows, st.staged)
    && TotalReserved(st.staged) == TotalReserved(rows) + TotalAllocated(st.created)
    && (forall c :: 0 <= c < |st.created| ==> (st.created[c].planId == planId && st.created[c].status == AllocatedStatus
         && st.created[c].allocatedQuantity > 0))
    && |orders| <= |st.orders| <= |orders| + |st.created| && st.orders[..|orders|] == orders
  }

  /** One pass of the loop: collect the item's error, stop on an abort, or reserve. */
  function StepStage(st: AllocationStage, planId: string, item: Record, ids: nat -> string): (r: AllocationStage)
    ensures |r.created| + |r.errors| <= |st.created| + |st.errors| + 1
  {
    ApplyStep(st, planId, item, AllocationStep(st.staged, item), ids)
  }

  /** What the outcome of an item's checks does to the staged tables. */
  function ApplyStep(st: AllocationStage, planId: string, item: Record, step: ItemStep, ids: nat -> string): (r: AllocationStage)
    requires step.ItemReserve? ==> step.index < |st.staged|
    ensures |r.created| + |r.errors| <= |st.created| + |st.errors| + 1
  {
    match step
    case ItemError(e) => st.(errors := st.errors + [e])
    case ItemSkipped => st
    case ItemAbort => st.(aborted := true)
    case ItemReserve(i, q) => Reserve(st, planId, item, i, q, ids)
  }

  /** A reservation of what the row has available, with its allocation record, keeps the loop's invariant. */
  lemma ReserveKeepsStage(rows: seq<Inventory>, orders: seq<SalesOrder>, planId: string, st: AllocationStage,
                          r: AllocationStage, i: nat, q: nat, a: MaterialAllocation)
    requires StageWithin(rows, orders, planId, st)
    requires i < |st.staged| && q > 0 && AvailableQuantity(st.staged[i]) >= q
    requires r.staged == st.staged[i := st.staged[i].(reserved := st.staged[i].reserved + q)]
    requires r.created == st.created + [a] && a.planId == planId && a.status == AllocatedStatus && a.allocatedQuantity == q
    requires |st.orders| <= |r.orders| <= |st.orders| + 1 && r.orders[..|st.orders|] == st.orders
    ensures StageWithin(rows, orders, planId, r)
  {
    ReserveKeepsWithin(rows, st.staged, i, q);
    TotalReservedOfUpdate(st.staged, i, st.staged[i].(reserved := st.staged[i].reserved + q));
    TotalAllocatedOfAppend(st.created, a);
    forall c | 0 <= c < |r.created|
      ensures r.created[c].planId == planId && r.created[c].status == AllocatedStatus && r.created[c].allocatedQuantity > 0
    {
      if c < |st.created| {
        assert r.created[c] == st.created[c];
      }
    }
    assert r.orders[..|orders|] == st.orders[..|orders|];
  }

  lemma StepKeepsWithin(rows: seq<Inventory>, orders: seq<SalesOrder>, planId: string, st: AllocationStage, item: Record, ids: nat -> string)
    requires StageWithin(rows, orders, planId, st)
    ensures StageWithin(rows, orders, planId, StepStage(st, planId, item, ids))
  {
    ApplyStepKeepsWithin(rows, orders, planId, st, item, AllocationStep(st.staged, item), ids);
  }

  lemma ApplyStepKeepsWithin(rows: seq<Inventory>, orders: seq<SalesOrder>, planId: string, st: AllocationStage, item: Record,
                             step: ItemStep, ids: nat -> string)
    requires StageWithin(rows, orders, planId, st)
    requires step.ItemReserve? ==> step.index < |st.staged| && step.quantity > 0 && AvailableQuantity(st.staged[step.index]) >= step.quantity
    ensures StageWithin(rows, orders, planId, ApplyStep(st, planId, item, step, ids))
  {
    if step.ItemReserve? {
      var r := Reserve(st, planId, item, step.index, step.quantity, ids);
      var a := MaterialAllocation(ids(2 * |st.created|), planId, PyStr(DataGet(item, "part_number", Null)), step.quantity, AllocatedStatus);
      ReserveKeepsStage(rows, orders, planId, st, r, step.index, step.quantity, a);
    }
  }

  /** The allocation loop as a fold: `StepStage` over the items in order, stopping at the first abort. */
  function StageFold(st: AllocationStage, planId: string, items: seq<Record>, ids: nat -> string): (r: AllocationStage)
    ensures st.aborted ==> r == st
    ensures |r.created| + |r.errors| <= |st.created| + |st.errors| + |items|
    decreases |items|
  {
    if items == [] || st.aborted then st
    else StageFold(StepStage(st, planId, items[0], ids), planId, items[1..], ids)
  }

  /** What the loop of `allocate_materials` stages, starting from the tables as they were before the request. */
  function AllocationFold(planId: string, rows: seq<Inventory>, orders: seq<SalesOrder>, items: seq<Record>, ids: nat -> string): AllocationStage
  {
    StageFold(AllocationStage(rows, [], orders, [], false), planId, items, ids)
  }

  /** Every step of the fold keeps the staged tables within the loop's invariant. */
  lemma {:induction false} StageFoldWithin(rows: seq<Inventory>, orders: seq<SalesOrder>, planId: string, st: AllocationStage,
                                          items: seq<Record>, ids: nat -> string)
    requires StageWithin(rows, orders, planId, st)
    ensures StageWithin(rows, orders, planId, StageFold(st, planId, items, ids))
    decreases |items|
  {
    if items != [] && !st.aborted {
      StepKeepsWithin(rows, orders, planId, st, items[0], ids);
      StageFoldWithin(rows, orders, planId, StepStage(st, planId, items[0], ids), items[1..], ids);
    }
  }

  /**
   * The loop of `allocate_materials` over staged tables. Every item is
   * looked at, so every error is collected; `aborted` reports an exception
   * that no handler in the loop catches. `ids(n)` is the hex text of
   * the n-th UUID drawn.
   */
  method StageAllocations(planId: string, rows: seq<Inventory>, orders: seq<SalesOrder>, items: seq<Record>, ids: nat -> string)
    returns (st: AllocationStage)
    ensures st == AllocationFold(planId, rows, orders, items, ids)
    ensures ReservedWithin(rows, st.staged)
    ensures TotalReserved(st.staged) == TotalReserved(rows) + TotalAllocated(st.created)
    ensures forall k :: 0 <= k < |st.created| ==> (st.created[k].planId == planId && st.created[k].status == AllocatedStatus
      && st.created[k].allocatedQuantity > 0)
    ensures |st.created| + |st.errors| <= |items|
    ensures |orders| <= |st.orders| <= |orders| + |st.created| && st.orders[..|orders|] == orders
  {
    st := AllocationStage(rows, [], orders, [], false);
    assert orders[..|orders|] == orders;
    StageFoldWithin(rows, orders, planId, st, items, ids);
    var k := 0;
    while k < |items| && !st.aborted
      invariant 0 <= k <= |items|
      invariant StageFold(st, planId, items[k..], ids) == AllocationFold(planId, rows, orders, items, ids)
    {
      assert items[k..][0] == items[k] && items[k..][1..] == items[k + 1..];
      st := StepStage(st, planId, items[k], ids);
      k := k + 1;
    }
    assert k == |items| ==> items[k..] == [];
  }

  /** An allocation request goes through: the plan exists, the items are a non-empty list, and the fold neither aborts nor collects an error. */
  predicate AllocationGoesThrough(plans: seq<ProductionPlan>, pk: string, field: AllocationsField,
                                  rows: seq<Inventory>, orders: seq<SalesOrder>, ids: nat -> string)
  {
    && IndexOfPlan(plans, pk).Some? && field.Items? && field.items != []
    && var st := AllocationFold(plans[IndexOfPlan(plans, pk).value].id, rows, orders, field.items, ids);
    && !st.aborted && st.errors == []
  }

  // ---------------------------------------------------------------------
  // Progress update (`update_progress`)
  // ---------------------------------------------------------------------

  /** The plan's own fields after a progress update to `s` at `now`. */
  function PlanAfterUpdate(plan: ProductionPlan, s: string, now: int): (r: ProductionPlan)
    ensures r.id == plan.id && r.productCode == plan.productCode && r.reference == plan.reference && r.status == s
    ensures plan.actualStart.Some? ==> r.actualStart == plan.actualStart
    ensures r.actualStart != plan.actualStart ==> (r.actualStart == Some(now)
      && (s == Completed || (s == InProgress && plan.status in {"PENDING", "ON_HOLD"})))
    ensures r.actualEnd != plan.actualEnd ==> (r.actualEnd == Some(now)
      && (s == Completed || (s == "CANCELLED" && plan.actualStart.Some? && plan.actualEnd.None?)))
    ensures s == Completed ==> r.actualEnd == Some(now) && r.actualStart.Some?
  {
    if s == InProgress then
      if plan.status in {"PENDING", "ON_HOLD"} && plan.actualStart.None? then plan.(status := s, actualStart := Some(now))
      else plan.(status := s)
    else if s == Completed then
      plan.(status := s, actualStart := if plan.actualStart.None? then Some(now) else plan.actualStart, actualEnd := Some(now))
    else if s == "CANCELLED" && plan.actualStart.Some? && plan.actualEnd.None? then
      plan.(status := s, actualEnd := Some(now))
    else plan.(status := s)
  }

  /** The work-progress row's status and times after a progress update to `s` at `now`. */
  function ProgressAfterUpdate(wp: WorkProgress, s: string, now: int): (r: WorkProgress)
    ensures r.planId == wp.planId && r.processStep == wp.processStep && r.operator == wp.operator
    ensures r.quantityCompleted == wp.quantityCompleted
    ensures r.actualReported == wp.actualReported && r.defectiveReported == wp.defectiveReported
    ensures s == InProgress ==> r.status == InProgress && r.start.Some? && r.end.None?
    ensures s == Completed ==> r.status == Completed && r.start.Some? && r.end == Some(now)
    ensures s == "ON_HOLD" ==> r == wp.(status := "PAUSED")
    ensures s == "CANCELLED" && wp.status in {InProgress, NotStarted} ==> r.status == "PAUSED"
    ensures s == "CANCELLED" && wp.status !in {InProgress, NotStarted} ==> r == wp
    ensures s == "PENDING" ==> r == wp.(status := NotStarted)
    ensures s !in PlanStatuses ==> r == wp
    ensures wp.start.Some? ==> r.start == wp.start
  {
    if s == InProgress then
      wp.(status := InProgress, start := if wp.start.None? then Some(now) else wp.start, end := None)
    else if s == Completed then
      wp.(status := Completed, start := if wp.start.None? then Some(now) else wp.start, end := Some(now))
    else if s == "ON_HOLD" then wp.(status := "PAUSED")
    else if s == "CANCELLED" then
      if wp.status == InProgress || wp.status == NotStarted then
        wp.(status := "PAUSED", end := if wp.start.Some? && wp.end.None? then Some(now) else wp.end)
      else wp
    else if s == "PENDING" then wp.(status := NotStarted)
    else wp
  }

  /** A reported quantity: absent (or null), a non-negative integer, or invalid. */
  datatype Count = Absent | Count(n: nat) | BadCount

  function CountOf(v: Value): (c: Count)
    ensures c.Absent? <==> v.Null?
    ensures c.Count? <==> PyInt(v).Some? && PyInt(v).value >= 0
    ensures c.Count? ==> c.n == PyInt(v).value
  {
    if v.Null? then Absent
    else if PyInt(v).Some? && PyInt(v).value >= 0 then Count(PyInt(v).value)
    else BadCount
  }

  datatype Quantities = QuantityError(error: string) | Quantities(good: nat, actual: Option<nat>, defective: Option<nat>)

  /** The quantities a COMPLETED update must carry: `good_quantity` required, the other two optional. */
  function CompletedQuantities(data: Record): (r: Quantities)
    ensures var good, actual, defective :=
        DataGet(data, "good_quantity", Null), DataGet(data, "actual_quantity", Null), DataGet(data, "defective_quantity", Null);
      && (r.Quantities? <==> CountOf(good).Count? && !CountOf(actual).BadCount? && !CountOf(defective).BadCount?)
      && (r.Quantities? ==> r.good == CountOf(good).n && (r.actual.None? <==> actual.Null?) && (r.defective.None? <==> defective.Null?))
  {
    var good := CountOf(DataGet(data, "good_quantity", Null));
    var actual := CountOf(DataGet(data, "actual_quantity", Null));
    var defective := CountOf(DataGet(data, "defective_quantity", Null));
    if good.Absent? then QuantityError(GoodRequired)
    else if good.BadCount? then QuantityError(GoodInvalid)
    else if actual.BadCount? then QuantityError(ActualInvalid)
    else if defective.BadCount? then QuantityError(DefectiveInvalid)
    else Quantities(good.n, if actual.Count? then Some(actual.n) else None, if defective.Count? then Some(defective.n) else None)
  }

  /** A finished-goods row of a product: in `FG-MAIN`, whatever its location. */
  predicate FinishedGoods(inv: Inventory, product: string)
  {
    inv.partNumber == Some(product) && inv.warehouse == Some(FinishedGoodsWarehouse)
  }

  /** `Inventory.objects.get(part_number=product, warehouse="FG-MAIN")`: no row, the one row, or several. */
  function FinishedRows(rows: seq<Inventory>, product: string): (r: Lookup)
    ensures r.NoRow? <==> forall i :: 0 <= i < |rows| ==> !FinishedGoods(rows[i], product)
    ensures r.OneRow? ==> r.index < |rows| && FinishedGoods(rows[r.index], product)
    ensures forall i, j :: 0 <= i < j < |rows| && FinishedGoods(rows[i], product) && FinishedGoods(rows[j], product) ==> r.ManyRows?
  { FindWhere(rows, (inv: Inventory) => FinishedGoods(inv, product)) }

  /** The outcome of a finished-goods adjustment: the new rows, a `ValueError` (400) or `MultipleObjectsReturned` (500). */
  datatype StockChange = StockChanged(rows: seq<Inventory>) | StockRefused(reason: string) | StockAmbiguous

  /** Takes `q` back out of the product's finished-goods row when leaving COMPLETED; a missing row or short stock refuses. */
  function ReverseFinished(rows: seq<Inventory>, product: string, q: nat): (r: StockChange)
    ensures r.StockChanged? ==> forall p :: TotalQuantity(r.rows, p) == TotalQuantity(rows, p) - (if p == Some(product) then q else 0)
    ensures r.StockChanged? ==> |r.rows| == |rows|
    ensures r.StockAmbiguous? <==> FinishedRows(rows, product).ManyRows?
    ensures r.StockRefused? <==> (var found := FinishedRows(rows, product);
      found.NoRow? || (found.OneRow? && rows[found.index].quantity < q))
  {
    match FinishedRows(rows, product)
    case NoRow => StockRefused(ReversalMissing(product))
    case ManyRows => StockAmbiguous
    case OneRow(i) =>
      if rows[i].quantity < q then StockRefused(ReversalShort(product, q, rows[i].quantity))
      else StockChanged(Debited(rows, i, q))
  }

  function ReversalMissing(product: string): string
  {
    "Inventory for product " + product + " in warehouse " + FinishedGoodsWarehouse + " not found for reversal."
  }

  function ReversalShort(product: string, deduct: int, stock: int): string
  {
    "Cannot reverse production for " + product + " in " + FinishedGoodsWarehouse + ". Required to deduct: "
    + IntToString(deduct) + ", Current stock: " + IntToString(stock) + "."
  }

  function ReversalDescription(planId: string, oldStatus: string, s: string): string
  {
    "Prod. completion reversed for plan " + planId + " (status: " + oldStatus + " -> " + s + ")."
  }

  function CompletionDescription(planId: string, delta: int, total: int): string
  {
    "Plan " + planId + " completion. Qty changed by: " + IntToString(delta) + ". New total completed: " + IntToString(total) + "."
  }

  function ReduceRefused(product: string, deduct: int, stock: int): string
  {
    "Cannot reduce completed quantity for " + product + " in " + FinishedGoodsWarehouse + ". Attempting to deduct: "
    + IntToString(deduct) + ", Current stock: " + IntToString(stock) + "."
  }

  /** Adds `delta` (either sign) to the product's finished-goods row, creating it at 0 when absent; never below zero. */
  function AdjustFinished(rows: seq<Inventory>, product: string, delta: int): (r: StockChange)
    ensures r.StockChanged? ==> forall p :: TotalQuantity(r.rows, p) == TotalQuantity(rows, p) + (if p == Some(product) then delta else 0)
    ensures r.StockAmbiguous? <==> FinishedRows(rows, product).ManyRows?
    ensures r.StockRefused? <==> (var found := FinishedRows(rows, product);
      delta < 0 && (found.NoRow? || (found.OneRow? && rows[found.index].quantity < -delta)))
  {
    match FinishedRows(rows, product)
    case ManyRows => StockAmbiguous
    case NoRow =>
      if delta < 0 then StockRefused(ReduceRefused(product, -delta, 0))
      else
        var row := NewInventory(NextId(rows), Some(product), Some(FinishedGoodsWarehouse), None, delta);
        assert forall p :: TotalQuantity(rows + [row], p) == TotalQuantity(rows, p) + (if p == Some(product) then delta else 0) by {
          forall p ensures TotalQuantity(rows + [row], p) == TotalQuantity(rows, p) + (if p == Some(product) then delta else 0) {
            TotalOfAppend(rows, row, p);
          }
        }
        StockChanged(rows + [row])
    case OneRow(i) =>
      if delta < 0 && rows[i].quantity < -delta then StockRefused(ReduceRefused(product, -delta, rows[i].quantity))
      else StockChanged(Debited(rows, i, -delta))
  }

  /** The change booked at `FG-MAIN` for an update from `oldStatus` to `s`. */
  function FinishedDelta(oldStatus: string, s: string, previous: nat, good: nat): (d: int)
    ensures s == Completed && oldStatus != Completed ==> d == good
    ensures s == Completed && oldStatus == Completed ==> d == good - previous
    ensures s != Completed && oldStatus == Completed ==> d == -(previous as int)
    ensures s != Completed && oldStatus != Completed ==> d == 0
  {
    if s == Completed then (if oldStatus != Completed then good else good - previous)
    else if oldStatus == Completed then -(previous as int)
    else 0
  }

  /** The movement logged at `now` for a change `delta` of finished goods: its size, typed by its sign. */
  function FinishedMovement(product: string, delta: int, reference: string, description: string, operator: Option<string>, now: int): (m: StockMovement)
    requires delta != 0
    ensures m.movementDate == now
    ensures m.quantity == (if delta > 0 then delta else -delta) && m.quantity > 0
    ensures m.movementType == (if delta > 0 then "PRODUCTION_OUTPUT" else "PRODUCTION_REVERSAL")
    ensures m.partNumber == Some(product) && m.warehouse == Some(FinishedGoodsWarehouse)
  {
    StockMovement(Some(product), Some(FinishedGoodsWarehouse), None,
      if delta > 0 then "PRODUCTION_OUTPUT" else "PRODUCTION_REVERSAL",
      if delta > 0 then delta else -delta, now, Some(description), Some(reference), operator)
  }

  /** The staged outcome of the atomic block of `update_progress`. */
  datatype ProgressStage =
    | Staged(wp: WorkProgress, rows: seq<Inventory>, logged: seq<StockMovement>)
    | StageRefused(reason: string)
    | StageFailed

  /**
   * The atomic block: the reversal when leaving COMPLETED with a positive
   * completed quantity, then the adjustment when the new status is
   * COMPLETED. `wp` already carries the new status and quantities;
   * `previous` is its completed quantity before the update.
   */
  function StageProgress(plan: ProductionPlan, oldStatus: string, s: string, wp: WorkProgress, previous: nat,
                         rows: seq<Inventory>, operator: Option<string>, now: int): (r: ProgressStage)
    ensures r.Staged? ==> forall p :: (TotalQuantity(r.rows, p) ==
      TotalQuantity(rows, p) + (if p == Some(plan.productCode) then FinishedDelta(oldStatus, s, previous, wp.quantityCompleted) else 0))
    ensures r.Staged? ==> |r.logged| <= 1
    ensures r.Staged? ==> (|r.logged| == 1 <==> FinishedDelta(oldStatus, s, previous, wp.quantityCompleted) != 0)
    ensures r.Staged? && |r.logged| == 1 ==> (r.logged[0].quantity as int ==
      (var d := FinishedDelta(oldStatus, s, previous, wp.quantityCompleted); if d > 0 then d else -d))
    ensures r.Staged? && |r.logged| == 1 ==> (r.logged[0].movementType ==
      (if FinishedDelta(oldStatus, s, previous, wp.quantityCompleted) > 0 then "PRODUCTION_OUTPUT" else "PRODUCTION_REVERSAL"))
    ensures r.Staged? && oldStatus == Completed && s != Completed && previous > 0 ==>
      r.wp == wp.(quantityCompleted := 0, actualReported := None, defectiveReported := None)
    ensures r.Staged? && !(oldStatus == Completed && s != Completed && previous > 0) ==> r.wp == wp
    ensures oldStatus == Completed && s != Completed && previous > 0 ==> (var x := ReverseFinished(rows, plan.productCode, previous);
      && (r.Staged? <==> x.StockChanged?) && (r.StageFailed? <==> x.StockAmbiguous?)
      && (x.StockRefused? ==> r == StageRefused(x.reason)))
    ensures s == Completed && FinishedDelta(oldStatus, s, previous, wp.quantityCompleted) != 0 ==> (
      var x := AdjustFinished(rows, plan.productCode, FinishedDelta(oldStatus, s, previous, wp.quantityCompleted));
      && (r.Staged? <==> x.StockChanged?) && (r.StageFailed? <==> x.StockAmbiguous?)
      && (x.StockRefused? ==> r == StageRefused(x.reason)))
    ensures (oldStatus != Completed || s == Completed || previous == 0) ==>
      (s != Completed || FinishedDelta(oldStatus, s, previous, wp.quantityCompleted) == 0) ==> r.Staged?
  {
    if oldStatus == Completed && s != Completed then
      if previous > 0 then
        match ReverseFinished(rows, plan.productCode, previous)
        case StockRefused(reason) => StageRefused(reason)
        case StockAmbiguous => StageFailed
        case StockChanged(after) =>
          Staged(wp.(quantityCompleted := 0, actualReported := None, defectiveReported := None), after,
            [FinishedMovement(plan.productCode, -(previous as int), "Reversal for PPlan-" + plan.id,
              ReversalDescription(plan.id, oldStatus, s), operator, now)])
      else
        assert forall p :: TotalQuantity(rows, p) == TotalQuantity(rows, p) + 0;
        Staged(wp, rows, [])
    else if s == Completed then
      var delta := FinishedDelta(oldStatus, s, previous, wp.quantityCompleted);
      if delta == 0 then Staged(wp, rows, [])
      else
        match AdjustFinished(rows, plan.productCode, delta)
        case StockRefused(reason) => StageRefused(reason)
        case StockAmbiguous => StageFailed
        case StockChanged(after) =>
          Staged(wp, after, [FinishedMovement(plan.productCode, delta, "ProductionPlan-" + plan.id,
            CompletionDescription(plan.id, delta, wp.quantityCompleted), operator, now)])
    else Staged(wp, rows, [])
  }

  /** The good quantity a COMPLETED update reports; 0 when it reports none. */
  function ReportedGood(data: Record): nat
  {
    var q := CompletedQuantities(data);
    if q.Quantities? then q.good else 0
  }

  /** The work-progress row an update hands to the atomic block: the status and times, and for COMPLETED the reported quantities. */
  function ReportedProgress(wp: WorkProgress, s: string, data: Record, now: int): (r: WorkProgress)
    ensures s != Completed ==> r == ProgressAfterUpdate(wp, s, now)
    ensures s == Completed ==> r.status == Completed && r.end == Some(now)
    ensures s == Completed && CompletedQuantities(data).Quantities? ==> (r.quantityCompleted == CompletedQuantities(data).good
      && r.actualReported == CompletedQuantities(data).actual && r.defectiveReported == CompletedQuantities(data).defective)
    ensures r.planId == wp.planId && r.processStep == wp.processStep && r.operator == wp.operator
  {
    var qs := CompletedQuantities(data);
    var wp2 := ProgressAfterUpdate(wp, s, now);
    if s == Completed && qs.Quantities? then wp2.(quantityCompleted := qs.good, actualReported := qs.actual, defectiveReported := qs.defective)
    else wp2
  }

  /** The reply when the atomic block raises a `ValueError`. */
  function SaveRefused(reason: string): string
  {
    "Failed to save progress: " + reason
  }

  /** What the rest of an update does once the plan and its work-progress row are fetched. */
  datatype ProgressOutcome =
    | ProgressRefused(reply: Reply)
    | ProgressUpdated(plan: ProductionPlan, wp: WorkProgress, rows: seq<Inventory>, logged: seq<StockMovement>)

  /**
   * The status and time changes, the quantities a COMPLETED update must
   * carry, then the atomic block. `wp` is the overall work-progress row as
   * fetched; `s` the new status.
   */
  function ProgressUpdate(plan: ProductionPlan, wp: WorkProgress, s: string, data: Record, now: int,
                          operator: Option<string>, rows: seq<Inventory>): (r: ProgressOutcome)
    ensures s == Completed && CompletedQuantities(data).QuantityError? ==>
      r == ProgressRefused(BadRequest(CompletedQuantities(data).error))
    ensures r.ProgressRefused? ==> r.reply.BadRequest? || r.reply == ServerError
    ensures r.ProgressUpdated? ==> r.plan == PlanAfterUpdate(plan, s, now)
    ensures r.ProgressUpdated? ==> forall p :: (TotalQuantity(r.rows, p) == TotalQuantity(rows, p)
      + (if p == Some(plan.productCode) then FinishedDelta(plan.status, s, wp.quantityCompleted, ReportedGood(data)) else 0))
    ensures r.ProgressUpdated? ==> (|r.logged| == 1 <==> FinishedDelta(plan.status, s, wp.quantityCompleted, ReportedGood(data)) != 0)
    ensures r.ProgressUpdated? ==> |r.logged| <= 1
    ensures r.ProgressUpdated? && s == Completed ==> (r.wp.quantityCompleted == ReportedGood(data)
      && r.wp.status == Completed && r.wp.end == Some(now))
    ensures r.ProgressUpdated? && plan.status == Completed && s != Completed && wp.quantityCompleted > 0 ==>
      r.wp.quantityCompleted == 0
    ensures r.ProgressUpdated? ==> r.wp.planId == wp.planId && r.wp.processStep == wp.processStep
    ensures !(s == Completed && CompletedQuantities(data).QuantityError?) ==> (
      var st := StageProgress(plan, plan.status, s, ReportedProgress(wp, s, data, now), wp.quantityCompleted, rows, operator, now);
      && (r.ProgressUpdated? <==> st.Staged?)
      && (st.StageFailed? ==> r == ProgressRefused(ServerError))
      && (st.StageRefused? ==> r == ProgressRefused(BadRequest(SaveRefused(st.reason)))))
  {
    var wp2 := ProgressAfterUpdate(wp, s, now);
    var qs := CompletedQuantities(data);
    if s == Completed && qs.QuantityError? then ProgressRefused(BadRequest(qs.error))
    else
      var wp3 := ReportedProgress(wp, s, data, now);
      assert FinishedDelta(plan.status, s, wp.quantityCompleted, wp3.quantityCompleted)
        == FinishedDelta(plan.status, s, wp.quantityCompleted, ReportedGood(data));
      match StageProgress(plan, plan.status, s, wp3, wp.quantityCompleted, rows, operator, now)
      case StageRefused(reason) => ProgressRefused(BadRequest(SaveRefused(reason)))
      case StageFailed => ProgressRefused(ServerError)
      case Staged(wp4, after, logged) => ProgressUpdated(PlanAfterUpdate(plan, s, now), wp4, after, logged)
  }

  /** An update to a status other than COMPLETED, from one other than COMPLETED, leaves the stock alone. */
  lemma NoCompletionNoStockChange(plan: ProductionPlan, wp: WorkProgress, s: string, data: Record, now: int,
                                  operator: Option<string>, rows: seq<Inventory>)
    requires s != Completed && plan.status != Completed
    ensures ProgressUpdate(plan, wp, s, data, now, operator, rows) ==
      ProgressUpdated(PlanAfterUpdate(plan, s, now), ProgressAfterUpdate(wp, s, now), rows, [])
  {
  }

  /** Re-completing with the same good quantity books nothing and logs nothing. */
  lemma RecompleteSameQuantityIsNoChange(plan: ProductionPlan, wp: WorkProgress, rows: seq<Inventory>, operator: Option<string>, now: int)
    ensures StageProgress(plan, Completed, Completed, wp, wp.quantityCompleted, rows, operator, now) == Staged(wp, rows, [])
  {
  }

  /** Completing and then reverting puts back exactly what was booked, as long as the stock is still there. */
  lemma CompleteThenRevertRestores(plan: ProductionPlan, oldStatus: string, wp: WorkProgress, rows: seq<Inventory>, operator: Option<string>, now: int, s: string, p: Option<string>)
    requires oldStatus != Completed && s != Completed
    requires StageProgress(plan, oldStatus, Completed, wp, 0, rows, operator, now).Staged?
    requires var first := StageProgress(plan, oldStatus, Completed, wp, 0, rows, operator, now);
      StageProgress(plan, Completed, s, first.wp, first.wp.quantityCompleted, first.rows, operator, now).Staged?
    ensures var first := StageProgress(plan, oldStatus, Completed, wp, 0, rows, operator, now);
      var second := StageProgress(plan, Completed, s, first.wp, first.wp.quantityCompleted, first.rows, operator, now);
      TotalQuantity(second.rows, p) == TotalQuantity(rows, p) && second.wp.quantityCompleted == 0
  {
  }

  // ---------------------------------------------------------------------
  // The tables and the writing endpoints
  // ---------------------------------------------------------------------

  function IndexOfPlan(plans: seq<ProductionPlan>, pk: string): (r: Option<nat>)
    ensures r.None? <==> forall i :: 0 <= i < |plans| ==> plans[i].id != pk
    ensures r.Some? ==> r.value < |plans| && plans[r.value].id == pk
  {
    if plans == [] then None
    else if plans[0].id == pk then Some(0)
    else
      var k := IndexOfPlan(plans[1..], pk);
      if k.None? then None else Some(k.value + 1)
  }

  /** The overall work-progress row of a plan: `get_or_create` on (plan, step). */
  function FindProgress(progresses: seq<WorkProgress>, planId: string): (r: Lookup)
    ensures r.OneRow? ==> r.index < |progresses| && progresses[r.index].planId == planId && progresses[r.index].processStep == OverallStep
    ensures r.NoRow? <==> forall i :: 0 <= i < |progresses| ==> !(progresses[i].planId == planId && progresses[i].processStep == OverallStep)
  {
    var n := CountProgress(progresses, planId);
    if n == 0 then NoRow
    else if n == 1 then OneRow(FirstProgress(progresses, planId))
    else ManyRows
  }

  function CountProgress(progresses: seq<WorkProgress>, planId: string): (n: nat)
    ensures n == 0 <==> forall i :: 0 <= i < |progresses| ==> !(progresses[i].planId == planId && progresses[i].processStep == OverallStep)
  {
    if progresses == [] then 0
    else
      (if progresses[0].planId == planId && progresses[0].processStep == OverallStep then 1 else 0)
      + CountProgress(progresses[1..], planId)
  }

  function FirstProgress(progresses: seq<WorkProgress>, planId: string): (i: nat)
    requires CountProgress(progresses, planId) > 0
    ensures i < |progresses| && progresses[i].planId == planId && progresses[i].processStep == OverallStep
  {
    if progresses[0].planId == planId && progresses[0].processStep == OverallStep then 0
    else 1 + FirstProgress(progresses[1..], planId)
  }

  /** The work-progress table after `get_or_create`: unchanged when the row exists, else with a new NOT_STARTED row. */
  function WithOverallProgress(progresses: seq<WorkProgress>, planId: string, operator: Option<string>): (r: seq<WorkProgress>)
    ensures |progresses| <= |r| <= |progresses| + 1 && r[..|progresses|] == progresses
  {
    if FindProgress(progresses, planId).OneRow? then progresses
    else progresses + [WorkProgress(planId, OverallStep, operator, None, None, 0, None, None, NotStarted)]
  }

  /** Where `get_or_create` finds (or puts) the overall work-progress row. */
  function OverallProgressIndex(progresses: seq<WorkProgress>, planId: string, operator: Option<string>): (i: nat)
    ensures i < |WithOverallProgress(progresses, planId, operator)|
    ensures WithOverallProgress(progresses, planId, operator)[i].planId == planId
    ensures WithOverallProgress(progresses, planId, operator)[i].processStep == OverallStep
  {
    var look := FindProgress(progresses, planId);
    if look.OneRow? then look.index else |progresses|
  }

  const AllocationsNotAList := "Allocations data must be a list."
  const AllocationsEmpty := "Allocations list cannot be empty."
  const AllocationRolledBack := "Errors occurred during allocation process. Transaction rolled back."
  const AllocationDone := "Materials allocated successfully for production plan."
  const StatusRequired := "New status is required."
  const GoodRequired := "good_quantity is required when status is 'COMPLETED'."
  const GoodInvalid := "Invalid value for good_quantity. Must be a non-negative integer."
  const ActualInvalid := "Invalid value for actual_quantity. Must be a non-negative integer."
  const DefectiveInvalid := "Invalid value for defective_quantity. Must be a non-negative integer."
  const ProgressDone := "Production plan progress updated successfully."

  /** The `allocations` member of the request: a list of item records, or anything else. */
  datatype AllocationsField = NotAList | Items(items: seq<Record>)

  class ProductionStore {
    var plans: seq<ProductionPlan>
    var allocations: seq<MaterialAllocation>
    var progresses: seq<WorkProgress>
    var inventories: seq<Inventory>
    var movements: seq<StockMovement>
    var salesOrders: seq<SalesOrder>

    constructor (plans: seq<ProductionPlan>, inventories: seq<Inventory>)
      ensures this.plans == plans && this.inventories == inventories
      ensures allocations == [] && progresses == [] && movements == [] && salesOrders == []
    {
      this.plans := plans;
      this.inventories := inventories;
      allocations := [];
      progresses := [];
      movements := [];
      salesOrders := [];
    }

    /**
     * `POST /production-plans/{pk}/allocate-materials/`: reserves stock for
     * every valid item, with one allocation and one internal sales order
     * each; any collected error rolls back every reservation.
     */
    method AllocateMaterials(pk: string, field: AllocationsField, ids: nat -> string) returns (reply: Reply, details: seq<AllocationError>)
      modifies this
      ensures plans == old(plans) && progresses == old(progresses) && movements == old(movements)
      ensures !reply.Success? ==> (inventories == old(inventories) && allocations == old(allocations) && salesOrders == old(salesOrders))
      ensures IndexOfPlan(old(plans), pk).None? ==> reply == NotFoundReply
      ensures IndexOfPlan(old(plans), pk).Some? && field.NotAList? ==> reply == BadRequest(AllocationsNotAList)
      ensures IndexOfPlan(old(plans), pk).Some? && field == Items([]) ==> reply == BadRequest(AllocationsEmpty)
      ensures details != [] ==> reply == BadRequest(AllocationRolledBack)
      ensures reply.Success? <==> AllocationGoesThrough(old(plans), pk, field, old(inventories), old(salesOrders), ids)
      ensures IndexOfPlan(old(plans), pk).Some? && field.Items? && field.items != [] ==> (
        var st := AllocationFold(old(plans)[IndexOfPlan(old(plans), pk).value].id, old(inventories), old(salesOrders), field.items, ids);
        && (st.aborted ==> reply == ServerError)
        && (!st.aborted && st.errors != [] ==> reply == BadRequest(AllocationRolledBack) && details == st.errors)
        && (reply.Success? ==> inventories == st.staged && allocations == old(allocations) + st.created && salesOrders == st.orders))
      ensures reply.Success? ==> (details == [] && reply.message == AllocationDone
        && ReservedWithin(old(inventories), inventories)
        && |allocations| >= |old(allocations)| && allocations[..|old(allocations)|] == old(allocations)
        && TotalReserved(inventories) == TotalReserved(old(inventories)) + TotalAllocated(allocations[|old(allocations)|..]))
    {
      details := [];
      var pi := IndexOfPlan(plans, pk);
      if pi.None? {
        return NotFoundReply, details;
      }
      if field.NotAList? {
        return BadRequest(AllocationsNotAList), details;
      }
      if field.items == [] {
        return BadRequest(AllocationsEmpty), details;
      }
      var st := StageAllocations(plans[pi.value].id, inventories, salesOrders, field.items, ids);
      if st.aborted {
        return ServerError, details;
      }
      if st.errors != [] {
        return BadRequest(AllocationRolledBack), st.errors;
      }
      assert (allocations + st.created)[|allocations|..] == st.created;
      inventories := st.staged;
      allocations := allocations + st.created;
      salesOrders := st.orders;
      reply := Success(AllocationDone);
    }

    /**
     * `POST /production-plans/{pk}/update-progress/`. The work-progress row
     * is fetched or created before any check; a created row stays even when
     * the request is then refused. The plan, the row and the stock change
     * only when the atomic block completes.
     */
    method UpdateProgress(pk: string, data: Record, now: int, operator: Option<string>) returns (reply: Reply)
      modifies this
      ensures allocations == old(allocations) && salesOrders == old(salesOrders)
      ensures IndexOfPlan(old(plans), pk).None? ==> reply == NotFoundReply && progresses == old(progresses)
      ensures IndexOfPlan(old(plans), pk).Some? && !ValueTruthy(DataGet(data, "status", Null)) ==>
        reply == BadRequest(StatusRequired) && progresses == old(progresses)
      ensures !reply.Success? ==> (plans == old(plans) && inventories == old(inventories) && movements == old(movements))
      ensures !reply.Success? ==> (|old(progresses)| <= |progresses| <= |old(progresses)| + 1
        && progresses[..|old(progresses)|] == old(progresses))
      ensures IndexOfPlan(old(plans), pk).Some? && ValueTruthy(DataGet(data, "status", Null)) ==> (
        var plan := old(plans)[IndexOfPlan(old(plans), pk).value];
        var table := WithOverallProgress(old(progresses), plan.id, operator);
        var out := ProgressUpdate(plan, table[OverallProgressIndex(old(progresses), plan.id, operator)],
          PyStr(DataGet(data, "status", Null)), data, now, operator, old(inventories));
        && (FindProgress(old(progresses), plan.id).ManyRows? ==> reply == ServerError)
        && (!FindProgress(old(progresses), plan.id).ManyRows? ==> (reply.Success? <==> out.ProgressUpdated?))
        && (!FindProgress(old(progresses), plan.id).ManyRows? && out.ProgressRefused? ==> reply == out.reply))
      ensures reply.Success? ==> (
        && IndexOfPlan(old(plans), pk).Some?
        && var pi := IndexOfPlan(old(plans), pk).value;
        && var plan := old(plans)[pi];
        && var table := WithOverallProgress(old(progresses), plan.id, operator);
        && var wi := OverallProgressIndex(old(progresses), plan.id, operator);
        && var out := ProgressUpdate(plan, table[wi], PyStr(DataGet(data, "status", Null)), data, now, operator, old(inventories));
        && out.ProgressUpdated?
        && plans == old(plans)[pi := out.plan]
        && progresses == table[wi := out.wp]
        && inventories == out.rows
        && movements == old(movements) + out.logged)
    {
      var pi := IndexOfPlan(plans, pk);
      if pi.None? {
        return NotFoundReply;
      }
      var sv := DataGet(data, "status", Null);
      if !ValueTruthy(sv) {
        return BadRequest(StatusRequired);
      }
      reply := ApplyProgress(pi.value, PyStr(DataGet(data, "status", Null)), data, now, operator);
    }

    /** Everything after the plan and the status are known: the row's `get_or_create`, the changes and the atomic block. */
    method ApplyProgress(pi: nat, s: string, data: Record, now: int, operator: Option<string>) returns (reply: Reply)
      requires pi < |plans|
      modifies this
      ensures allocations == old(allocations) && salesOrders == old(salesOrders)
      ensures !reply.Success? ==> (plans == old(plans) && inventories == old(inventories) && movements == old(movements))
      ensures !reply.Success? ==> (|old(progresses)| <= |progresses| <= |old(progresses)| + 1
        && progresses[..|old(progresses)|] == old(progresses))
      ensures reply.Success? ==> (
        && var plan := old(plans)[pi];
        && var table := WithOverallProgress(old(progresses), plan.id, operator);
        && var wi := OverallProgressIndex(old(progresses), plan.id, operator);
        && var out := ProgressUpdate(plan, table[wi], s, data, now, operator, old(inventories));
        && out.ProgressUpdated?
        && plans == old(plans)[pi := out.plan]
        && progresses == table[wi := out.wp]
        && inventories == out.rows
        && movements == old(movements) + out.logged)
      ensures FindProgress(old(progresses), old(plans)[pi].id).ManyRows? ==> reply == ServerError && progresses == old(progresses)
      ensures !FindProgress(old(progresses), old(plans)[pi].id).ManyRows? ==> (
        var plan := old(plans)[pi];
        var table := WithOverallProgress(old(progresses), plan.id, operator);
        var out := ProgressUpdate(plan, table[OverallProgressIndex(old(progresses), plan.id, operator)], s, data, now, operator, old(inventories));
        && (reply.Success? <==> out.ProgressUpdated?)
        && (out.ProgressRefused? ==> reply == out.reply && progresses == table))
    {
      var plan := plans[pi];
      if FindProgress(progresses, plan.id).ManyRows? {
        return ServerError;
      }
      var table := WithOverallProgress(progresses, plan.id, operator);
      var wi := OverallProgressIndex(progresses, plan.id, operator);
      var out := ProgressUpdate(plan, table[wi], s, data, now, operator, inventories);
      progresses := table;
      if out.ProgressRefused? {
        return out.reply;
      }
      plans := plans[pi := out.plan];
      progresses := table[wi := out.wp];
      inventories := out.rows;
      movements := movements + out.logged;
      reply := Success(ProgressDone);
    }
  }
}
