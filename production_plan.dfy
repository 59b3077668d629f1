/**
 * The production-plan page (frontend/src/pages/ProductionPlan.tsx): a list
 * of plans searched by six filters and paged by the server's links, a detail
 * modal, and an allocation modal that proposes a quantity per required part
 * and sends the parts worth allocating.
 */
module ProductionPlanPage {
  import opened Common
  import opened Json
  import opened ListOps
  import opened PageLinks
  import ProductionViews
  import InventoryModels

  // ---------------------------------------------------------------------
  // Filters and the list query
  // ---------------------------------------------------------------------

  /** The six inputs of the search form. */
  datatype Filters = Filters(planName: string, productCode: string, status: string, parentPlanRef: string,
                             startFrom: string, startTo: string)

  const InitialFilters := Filters("", "", "", "", "", "")

  /** `handleFilterChange`: `{ ...prev, [name]: value }`; a name outside the form adds a member no one reads. */
  function SetFilter(f: Filters, name: string, value: string): (r: Filters)
    ensures name == "plan_name" ==> r == f.(planName := value)
    ensures name == "product_code" ==> r == f.(productCode := value)
    ensures name == "status" ==> r == f.(status := value)
    ensures name == "parent_plan_ref" ==> r == f.(parentPlanRef := value)
    ensures name == "planned_start_from" ==> r == f.(startFrom := value)
    ensures name == "planned_start_to" ==> r == f.(startTo := value)
    ensures name !in {"plan_name", "product_code", "status", "parent_plan_ref", "planned_start_from", "planned_start_to"} ==> r == f
  {
    if name == "plan_name" then f.(planName := value)
    else if name == "product_code" then f.(productCode := value)
    else if name == "status" then f.(status := value)
    else if name == "parent_plan_ref" then f.(parentPlanRef := value)
    else if name == "planned_start_from" then f.(startFrom := value)
    else if name == "planned_start_to" then f.(startTo := value)
    else f
  }

  const PageSize := 100
  /** The largest page the list endpoint serves (`max_page_size`). */
  const MaxPageSize := 200
  const PageSizeKey := "page_size"
  const PlanNameKey := "plan_name"
  const ProductCodeKey := "product_code"
  const StatusKey := "status"
  const PlanRefKey := "production_plan_ref"
  const StartAfterKey := "planned_start_datetime_after"
  const StartBeforeKey := "planned_start_datetime_before"

  function IfGiven(key: string, value: string): seq<Param>
  {
    if value != "" then [Param(key, value)] else []
  }

  /** `buildSearchQuery()` without a page link: the page size, then each filled filter. */
  function PlanQuery(f: Filters): seq<Param>
  {
    [Param(PageSizeKey, IntToString(PageSize))]
    + IfGiven(PlanNameKey, f.planName) + IfGiven(ProductCodeKey, f.productCode) + IfGiven(StatusKey, f.status)
    + IfGiven(PlanRefKey, f.parentPlanRef) + IfGiven(StartAfterKey, f.startFrom) + IfGiven(StartBeforeKey, f.startTo)
  }

  /** `buildSearchQuery(pageUrl)`: a link is reduced to its path and query; otherwise the filters are sent. */
  function SearchRequest(pageUrl: Option<string>, f: Filters): (r: ListRequest)
    ensures r.FollowLink? <==> pageUrl.Some? && pageUrl.value != ""
    ensures r.FollowLink? ==> r.path == ReduceLink(pageUrl.value)
    ensures r.Search? ==> r.params == PlanQuery(f)
  {
    ListRequestFor(pageUrl, PlanQuery(f))
  }

  lemma ValuesOfPiece(k: string, v: string, key: string)
    ensures ValuesOf(IfGiven(k, v), key) == if k == key && v != "" then [v] else []
  {
    assert [Param(k, v)][1..] == [];
  }

  /** What the server reads under a key: each piece of the query in turn. */
  lemma {:induction false} PlanQueryValues(f: Filters, key: string)
    ensures ValuesOf(PlanQuery(f), key) ==
      ValuesOf([Param(PageSizeKey, IntToString(PageSize))], key)
      + ValuesOf(IfGiven(PlanNameKey, f.planName), key) + ValuesOf(IfGiven(ProductCodeKey, f.productCode), key)
      + ValuesOf(IfGiven(StatusKey, f.status), key) + ValuesOf(IfGiven(PlanRefKey, f.parentPlanRef), key)
      + ValuesOf(IfGiven(StartAfterKey, f.startFrom), key) + ValuesOf(IfGiven(StartBeforeKey, f.startTo), key)
  {
    var a := [Param(PageSizeKey, IntToString(PageSize))];
    var b := IfGiven(PlanNameKey, f.planName);
    var c := IfGiven(ProductCodeKey, f.productCode);
    var d := IfGiven(StatusKey, f.status);
    var e := IfGiven(PlanRefKey, f.parentPlanRef);
    var g := IfGiven(StartAfterKey, f.startFrom);
    var h := IfGiven(StartBeforeKey, f.startTo);
    assert PlanQuery(f) == a + b + c + d + e + g + h;
    ValuesOfAppend(a + b + c + d + e + g, h, key);
    ValuesOfAppend(a + b + c + d + e, g, key);
    ValuesOfAppend(a + b + c + d, e, key);
    ValuesOfAppend(a + b + c, d, key);
    ValuesOfAppend(a + b, c, key);
    ValuesOfAppend(a, b, key);
  }

  /** The status filter changes the query only under `status`. */
  lemma StatusOnlyUnderItsKey(f: Filters, key: string)
    requires key != StatusKey
    ensures ValuesOf(PlanQuery(f), key) == ValuesOf(PlanQuery(f.(status := "")), key)
  {
    PlanQueryValues(f, key);
    PlanQueryValues(f.(status := ""), key);
    ValuesOfPiece(StatusKey, f.status, key);
    ValuesOfPiece(StatusKey, "", key);
  }

  /**
   * The list endpoint reads `status__in` and never `status`: the page's
   * status filter leaves the listed plans exactly as they are without it.
   */
  lemma StatusFilterIgnored(f: Filters, plan: ProductionViews.ProductionPlan, readDateTime: string -> Option<int>)
    ensures ProductionViews.PlanListed(plan, PlanQuery(f), readDateTime)
      == ProductionViews.PlanListed(plan, PlanQuery(f.(status := "")), readDateTime)
  {
    assert |"plan_name"| != |StatusKey| && |"product_code"| != |StatusKey|;
    assert |"status__in"| != |StatusKey| && |"production_plan_ref"| != |StatusKey|;
    assert |StartAfterKey| != |StatusKey| && |StartBeforeKey| != |StatusKey|;
    StatusOnlyUnderItsKey(f, "plan_name");
    StatusOnlyUnderItsKey(f, "product_code");
    StatusOnlyUnderItsKey(f, "status__in");
    StatusOnlyUnderItsKey(f, "production_plan_ref");
    StatusOnlyUnderItsKey(f, StartAfterKey);
    StatusOnlyUnderItsKey(f, StartBeforeKey);
    SameReadsSameListing(plan, PlanQuery(f), PlanQuery(f.(status := "")), readDateTime);
  }

  /** The server's filters read six keys: queries that agree on them list the same plans. */
  lemma SameReadsSameListing(plan: ProductionViews.ProductionPlan, ps: seq<Param>, qs: seq<Param>,
                             readDateTime: string -> Option<int>)
    requires ValuesOf(ps, "plan_name") == ValuesOf(qs, "plan_name")
    requires ValuesOf(ps, "product_code") == ValuesOf(qs, "product_code")
    requires ValuesOf(ps, "status__in") == ValuesOf(qs, "status__in")
    requires ValuesOf(ps, "production_plan_ref") == ValuesOf(qs, "production_plan_ref")
    requires ValuesOf(ps, StartAfterKey) == ValuesOf(qs, StartAfterKey)
    requires ValuesOf(ps, StartBeforeKey) == ValuesOf(qs, StartBeforeKey)
    ensures ProductionViews.PlanListed(plan, ps, readDateTime) == ProductionViews.PlanListed(plan, qs, readDateTime)
  {
  }

  /** The parent-plan reference is what the server matches plan references against. */
  lemma ServerReadsPlanRef(f: Filters)
    ensures QueryGet(PlanQuery(f), "production_plan_ref") == if f.parentPlanRef != "" then Some(f.parentPlanRef) else None
  {
    var key := "production_plan_ref";
    PlanQueryValues(f, key);
    assert PageSizeKey != key && PlanNameKey != key && ProductCodeKey != key && StatusKey != key;
    assert |StartAfterKey| != |key| && |StartBeforeKey| != |key|;
    ValuesOfPiece(PageSizeKey, IntToString(PageSize), key);
    ValuesOfPiece(PlanNameKey, f.planName, key);
    ValuesOfPiece(ProductCodeKey, f.productCode, key);
    ValuesOfPiece(StatusKey, f.status, key);
    ValuesOfPiece(PlanRefKey, f.parentPlanRef, key);
    ValuesOfPiece(StartAfterKey, f.startFrom, key);
    ValuesOfPiece(StartBeforeKey, f.startTo, key);
    ValuesOfEmpty(PlanQuery(f), key);
  }

  /** The page size asked for is one the endpoint serves in full. */
  lemma PageSizeServed()
    ensures 0 < PageSize <= MaxPageSize
    ensures ParamGet(PlanQuery(InitialFilters), PageSizeKey) == Some(IntToString(PageSize))
  {
  }

  // ---------------------------------------------------------------------
  // The page counter
  // ---------------------------------------------------------------------

  /** `Math.ceil(count / 100)`. */
  function TotalPages(count: int): (n: int)
    ensures count > 0 ==> n >= 1 && (n - 1) * PageSize < count <= n * PageSize
  {
    (count + PageSize - 1) / PageSize
  }

  /** A truthy link. */
  predicate Given(link: Option<string>)
  {
    link.Some? && link.value != ""
  }

  /** `if (currentPage < 1) currentPage = 1`; NaN (`None`) compares false and stays NaN. */
  function ClampPage(p: Option<int>): (r: Option<int>)
    ensures p.None? ==> r.None?
    ensures p.Some? ==> r == Some(Max(1, p.value))
  {
    match p case Some(v) => Some(if v < 1 then 1 else v) case None => None
  }

  /**
   * The page counter as written: the next link's page minus one, else the
   * previous link's page plus one, else 1, then raised to at least 1.
   */
  function PageShownAsWritten(next: Option<string>, previous: Option<string>): (r: Option<int>)
    ensures Given(next) && PageParam(next.value).Some? ==> r == Some(Max(1, PageParam(next.value).value - 1))
    ensures !Given(next) && !Given(previous) ==> r == Some(1)
  {
    ClampPage(
      if Given(next) then (match PageParam(next.value) case Some(n) => Some(n - 1) case None => None)
      else if Given(previous) then (match PageParam(previous.value) case Some(n) => Some(n + 1) case None => None)
      else Some(1))
  }

  /**
   * The page of a link, a link without a `page` entry being the first page
   * (the list endpoint drops the entry from its link to page 1).
   */
  function LinkedPage(link: string): (r: Option<int>)
    ensures PageParam(link).Some? ==> r == PageParam(link)
    ensures ParseUrl(link).Some? && ParamGet(SearchParams(ParseUrl(link).value.search), PageKey).None? ==> r == Some(1)
  {
    match ParseUrl(link)
    case None => None
    case Some(u) =>
      match ParamGet(SearchParams(u.search), PageKey)
      case None => Some(1)
      case Some(v) => ParseInt(v)
  }

  /** The page counter reading a link without a `page` entry as page 1. */
  function PageShown(next: Option<string>, previous: Option<string>): (r: Option<int>)
    ensures Given(next) && PageParam(next.value).Some? ==> r == Some(Max(1, PageParam(next.value).value - 1))
    ensures !Given(next) && Given(previous) && LinkedPage(previous.value).Some? ==> r == Some(Max(1, LinkedPage(previous.value).value + 1))
    ensures !Given(next) && !Given(previous) ==> r == Some(1)
  {
    ClampPage(
      if Given(next) then (match PageParam(next.value) case Some(n) => Some(n - 1) case None => None)
      else if Given(previous) then (match LinkedPage(previous.value) case Some(n) => Some(n + 1) case None => None)
      else Some(1))
  }

  /**
   * The links the list endpoint sends with page `n` of `total`: a next link
   * naming page n+1 unless on the last page, and a previous link unless on the
   * first, naming page n-1 or, for page 1, no page at all.
   */
  predicate ServerLinks(n: int, total: int, next: Option<string>, previous: Option<string>)
  {
    && 1 <= n <= total
    && (Given(next) <==> n < total)
    && (Given(next) ==> PageParam(next.value) == Some(n + 1))
    && (Given(previous) <==> n > 1)
    && (n == 2 ==> ParseUrl(previous.value).Some? && ParamGet(SearchParams(ParseUrl(previous.value).value.search), PageKey).None?)
    && (n > 2 ==> PageParam(previous.value) == Some(n - 1))
  }

  /** With the links the server sends, the corrected counter shows the page the user is on. */
  lemma PageShownIsCurrent(n: int, total: int, next: Option<string>, previous: Option<string>)
    requires ServerLinks(n, total, next, previous)
    ensures PageShown(next, previous) == Some(n)
  {
    if n < total {
      assert PageParam(next.value) == Some(n + 1);
    } else if n == 2 {
      assert LinkedPage(previous.value) == Some(1);
    } else if n > 2 {
      assert LinkedPage(previous.value) == Some(n - 1);
    }
  }

  /** On the second and last page the previous link has no `page` entry, and the counter as written shows NaN. */
  lemma SecondLastPageShowsNaN(next: Option<string>, previous: Option<string>)
    requires ServerLinks(2, 2, next, previous)
    ensures PageShownAsWritten(next, previous).None?
    ensures PageShown(next, previous) == Some(2)
  {
  }

  /**
   * The server's link back to page 1 of an unfiltered list keeps only the
   * page size; such a link meets the description above.
   */
  lemma FirstPageLinkHasNoPage(scheme: string, host: string, path: string, size: nat)
    requires scheme == Http || scheme == Https
    requires host != "" && forall j :: 0 <= j < |host| ==> !EndsHost(host[j])
    requires path != "" && path[0] == '/' && '?' !in path && '#' !in path
    ensures var link := scheme + host + path + "?" + PageSizeKey + "=" + NatToString(size);
      ParseUrl(link).Some? && ParamGet(SearchParams(ParseUrl(link).value.search), PageKey).None?
  {
    var digits := NatToString(size);
    var query := "?" + PageSizeKey + "=" + digits;
    assert '&' !in digits && '#' !in digits by {
      assert forall j :: 0 <= j < |digits| ==> IsDigit(digits[j]);
    }
    assert '#' !in query by {
      assert forall j :: 0 <= j < |query| ==> query[j] == if j < 11 then query[..11][j] else digits[j - 11];
    }
    var link := scheme + host + path + "?" + PageSizeKey + "=" + digits;
    assert link == scheme + host + path + query;
    ReduceLinkOfLink(scheme, host, path, query);
    assert ParseUrl(link) == Some(Url(host, path, query));
    SearchParamsOfOne(PageSizeKey, digits);
    assert SearchParams(query) == [Param(PageSizeKey, digits)];
    assert PageSizeKey != PageKey;
    assert ParamGet([Param(PageSizeKey, digits)], PageKey).None?;
  }

  /** The line under the table. */
  datatype PageInfo = NoInfo | NoData | PageOf(current: Option<int>, total: int, count: int) | ErrorInfo

  /** The counter line of an answer. */
  function InfoFor(count: int, next: Option<string>, previous: Option<string>): (info: PageInfo)
    ensures count > 0 <==> info.PageOf?
    ensures info.PageOf? ==> info.total == TotalPages(count) && info.count == count && info.current == PageShown(next, previous)
    ensures count <= 0 ==> info == NoData
  {
    if count > 0 then PageOf(PageShown(next, previous), TotalPages(count), count) else NoData
  }

  // ---------------------------------------------------------------------
  // Allocation
  // ---------------------------------------------------------------------

  /**
   * `calculateDefaultAllocation`: what is still needed, limited by the stock,
   * never negative.
   */
  function DefaultAllocation(required: int, inventory: int, reserved: int): (q: int)
    ensures 0 <= q
    ensures q <= Max(0, inventory) && q <= Max(0, required - reserved)
    ensures reserved >= required || inventory <= 0 ==> q == 0
    ensures q == Min(Max(0, required - reserved), Max(0, inventory))
  {
    Max(0, Min(Max(0, required - reserved), inventory))
  }

  /** A required-parts row with the quantity the user means to allocate, as typed. */
  datatype AllocationRow = AllocationRow(part: ProductionViews.RequiredPart, quantityToAllocate: string)

  /** The proposal for one row of the required-parts answer. */
  function ProposedRow(p: ProductionViews.RequiredPart): (r: AllocationRow)
    ensures r.part == p
    ensures ParseInt(r.quantityToAllocate) == Some(DefaultAllocation(p.requiredQuantity, p.inventoryQuantity, p.alreadyAllocated))
  {
    ParseIntOfIntToString(DefaultAllocation(p.requiredQuantity, p.inventoryQuantity, p.alreadyAllocated));
    AllocationRow(p, IntToString(DefaultAllocation(p.requiredQuantity, p.inventoryQuantity, p.alreadyAllocated)))
  }

  /** `data.map(part => ({ ...part, quantity_to_allocate: ... }))`. */
  function ProposedRows(parts: seq<ProductionViews.RequiredPart>): (rows: seq<AllocationRow>)
    ensures |rows| == |parts|
    ensures forall k :: 0 <= k < |parts| ==> rows[k] == ProposedRow(parts[k])
  {
    MapSeq(parts, ProposedRow)
  }

  /** `handleAllocationQuantityChange`: every row of that part takes the typed value; other rows stay. */
  function EditQuantity(rows: seq<AllocationRow>, partCode: string, value: string): (r: seq<AllocationRow>)
    ensures |r| == |rows|
    ensures forall k :: 0 <= k < |rows| ==> r[k].part == rows[k].part
    ensures forall k :: 0 <= k < |rows| && rows[k].part.partCode == partCode ==> r[k].quantityToAllocate == value
    ensures forall k :: 0 <= k < |rows| && rows[k].part.partCode != partCode ==> r[k] == rows[k]
  {
    seq(|rows|, k requires 0 <= k < |rows| =>
      if rows[k].part.partCode == partCode then rows[k].(quantityToAllocate := value) else rows[k])
  }

  /** `parseFloat(x) || 0` on whole numbers. */
  function QuantityOrZero(text: string): (n: int)
    ensures ParseInt(text).Some? ==> n == ParseInt(text).value
    ensures ParseInt(text).None? ==> n == 0
  {
    match ParseInt(text) case Some(v) => v case None => 0
  }

  const NoWarehouse := "N/A"

  /** A row is sent when its quantity is positive and it names a real warehouse. */
  predicate Sendable(row: AllocationRow)
  {
    QuantityOrZero(row.quantityToAllocate) > 0
    && row.part.warehouse.Some? && row.part.warehouse.value != "" && row.part.warehouse.value != NoWarehouse
  }

  const PartNumberField := "part_number"
  const WarehouseField := "warehouse"
  const QuantityField := "quantity_to_allocate"

  /** One entry of `allocations` in the request body. */
  function ItemOf(row: AllocationRow): (item: Record)
    ensures item.Keys == {PartNumberField, WarehouseField, QuantityField}
  {
    map[PartNumberField := Str(row.part.partCode),
        WarehouseField := Str(match row.part.warehouse case Some(w) => w case None => ""),
        QuantityField := Num(QuantityOrZero(row.quantityToAllocate))]
  }

  /** The entries sent: one per sendable row, in order. */
  function AllocationItems(rows: seq<AllocationRow>): (items: seq<Record>)
    ensures |items| <= |rows|
    ensures forall item :: item in items ==> exists k :: 0 <= k < |rows| && Sendable(rows[k]) && item == ItemOf(rows[k])
    ensures forall k :: 0 <= k < |rows| && Sendable(rows[k]) ==> ItemOf(rows[k]) in items
  {
    MapFilterMembers(rows, Sendable, ItemOf);
    MapSeq(Filter(rows, Sendable), ItemOf)
  }

  /** Setting a part's quantity to 0, a blank or anything else that is not positive keeps it out of the request. */
  lemma ClearedPartNotSent(rows: seq<AllocationRow>, partCode: string, value: string)
    requires QuantityOrZero(value) <= 0
    ensures forall item :: item in AllocationItems(EditQuantity(rows, partCode, value)) ==> item[PartNumberField] != Str(partCode)
  {
    var edited := EditQuantity(rows, partCode, value);
    var items := AllocationItems(edited);
    forall item | item in items ensures item[PartNumberField] != Str(partCode) {
      var k :| 0 <= k < |edited| && Sendable(edited[k]) && item == ItemOf(edited[k]);
      SendableEditedRowIsOther(rows, partCode, value, edited, k);
      ItemPartNumber(edited[k]);
    }
  }

  /** A row still sendable after the edit is a row of another part. */
  lemma SendableEditedRowIsOther(rows: seq<AllocationRow>, partCode: string, value: string, edited: seq<AllocationRow>, k: nat)
    requires QuantityOrZero(value) <= 0
    requires edited == EditQuantity(rows, partCode, value)
    requires k < |edited| && Sendable(edited[k])
    ensures edited[k].part.partCode != partCode
  {
  }

  /** The part number of an entry is its row's part code. */
  lemma ItemPartNumber(row: AllocationRow)
    ensures ItemOf(row)[PartNumberField] == Str(row.part.partCode)
  {
  }

  /**
   * Every entry the page sends passes the server's own checks on the entry:
   * a part and a warehouse are given and the quantity is a positive integer,
   * so the server never refuses it as incomplete, invalid or negative, nor
   * skips it as zero.
   */
  lemma SentItemsPassServerChecks(rows: seq<AllocationRow>, stock: seq<InventoryModels.Inventory>)
    requires forall k :: 0 <= k < |rows| ==> rows[k].part.partCode != ""
    ensures forall item :: item in AllocationItems(rows) ==>
      var step := ProductionViews.AllocationStep(stock, item);
      !step.ItemSkipped? && !(step.ItemError? && (step.error.MissingData? || step.error.InvalidQuantity? || step.error.NegativeQuantity?))
  {
    forall item | item in AllocationItems(rows)
      ensures var step := ProductionViews.AllocationStep(stock, item);
        !step.ItemSkipped? && !(step.ItemError? && (step.error.MissingData? || step.error.InvalidQuantity? || step.error.NegativeQuantity?))
    {
      var k :| 0 <= k < |rows| && Sendable(rows[k]) && item == ItemOf(rows[k]);
      ItemPassesServerChecks(rows[k], stock);
    }
  }

  lemma ItemPassesServerChecks(row: AllocationRow, stock: seq<InventoryModels.Inventory>)
    requires Sendable(row) && row.part.partCode != ""
    ensures var step := ProductionViews.AllocationStep(stock, ItemOf(row));
      !step.ItemSkipped? && !(step.ItemError? && (step.error.MissingData? || step.error.InvalidQuantity? || step.error.NegativeQuantity?))
  {
    var item := ItemOf(row);
    assert DataGet(item, "part_number", Null) == Str(row.part.partCode);
    assert DataGet(item, "warehouse", Null) == Str(row.part.warehouse.value);
    assert DataGet(item, "quantity_to_allocate", Null) == Num(QuantityOrZero(row.quantityToAllocate));
  }

  /** What `handleAllocationSubmit` does before any request. */
  datatype Submission = NoPlan | NothingToAllocate | SendAllocations(planId: string, items: seq<Record>)

  const NothingToAllocateText := "引き当て対象の有効な部品がありません。"
  const AllocationFailedText := "引き当てに失敗しました。"

  /** The message shown above the table after an allocation. */
  datatype AllocationResult = AllocationSucceeded(data: Record) | AllocationFailed(message: string)

  /** The answer of `allocate-materials`. */
  datatype AllocationReply = AllocationOk(data: Record) | AllocationNotOk(error: Option<string>, detail: Option<string>)
                           | AllocationUnsent(message: string)

  /** `data.error || data.detail || '引き当てに失敗しました。'`, or the thrown message. */
  function ResultOf(reply: AllocationReply): (r: AllocationResult)
    ensures reply.AllocationOk? <==> r.AllocationSucceeded?
    ensures reply.AllocationOk? ==> r.data == reply.data
    ensures reply.AllocationNotOk? ==> r.message == OptOrElse(reply.error, OptOrElse(reply.detail, AllocationFailedText))
    ensures reply.AllocationNotOk? ==> r.message != ""
    ensures reply.AllocationUnsent? ==> r.message == reply.message
  {
    match reply
    case AllocationOk(data) => AllocationSucceeded(data)
    case AllocationNotOk(e, d) => AllocationFailed(OptOrElse(e, OptOrElse(d, AllocationFailedText)))
    case AllocationUnsent(m) => AllocationFailed(m)
  }

  /** The answer of `required-parts`. */
  datatype PartsAnswer = PartsOk(parts: seq<ProductionViews.RequiredPart>)
                       | PartsFailed(detail: Option<string>, statusText: string, status: int)

  function ServerErrorText(status: int): string
  {
    "サーバーエラー (" + IntToString(status) + ")"
  }

  /** `errorData?.detail || response.statusText || 'サーバーエラー (status)'`. */
  function PartsErrorOf(detail: Option<string>, statusText: string, status: int): (m: string)
    ensures m != ""
    ensures detail.Some? && detail.value != "" ==> m == detail.value
    ensures (detail.None? || detail.value == "") && statusText != "" ==> m == statusText
  {
    OptOrElse(detail, OrElse(statusText, ServerErrorText(status)))
  }

  /** The list answer: a page of plans, or a failure. */
  datatype PlansAnswer = PlansOk(results: seq<ProductionViews.ProductionPlan>, count: int, next: Option<string>, previous: Option<string>)
                       | PlansFailed

  const LoadErrorText := "生産計画データの取得中にエラーが発生しました。"

  datatype ListLinks = ListLinks(count: int, next: Option<string>, previous: Option<string>)

  const NoLinks := ListLinks(0, None, None)

  // ---------------------------------------------------------------------
  // The page
  // ---------------------------------------------------------------------

  class Screen {
    var plans: seq<ProductionViews.ProductionPlan>
    var loading: bool
    var error: Option<string>
    var pagination: ListLinks
    var pageInfo: PageInfo
    var filters: Filters
    var detailOpen: bool
    var detailPlan: Option<ProductionViews.ProductionPlan>
    var allocateOpen: bool
    var allocatePlan: Option<ProductionViews.ProductionPlan>
    var requiredParts: seq<AllocationRow>
    var partsLoading: bool
    var partsError: Option<string>
    var allocationResult: Option<AllocationResult>

    constructor ()
      ensures plans == [] && loading && error.None? && pagination == NoLinks && pageInfo == NoInfo
      ensures filters == InitialFilters && !detailOpen && detailPlan.None?
      ensures !allocateOpen && allocatePlan.None? && requiredParts == [] && !partsLoading
      ensures partsError.None? && allocationResult.None?
    {
      plans, loading, error, pagination, pageInfo := [], true, None, NoLinks, NoInfo;
      filters := InitialFilters;
      detailOpen, detailPlan := false, None;
      allocateOpen, allocatePlan, requiredParts, partsLoading, partsError, allocationResult := false, None, [], false, None, None;
    }

    /** `fetchProductionPlans(pageUrl)`: the request, then the answer's plans and counter, or the error. */
    method FetchProductionPlans(pageUrl: Option<string>, answer: PlansAnswer) returns (request: ListRequest)
      modifies this`plans, this`pagination, this`pageInfo, this`error, this`loading
      ensures request == SearchRequest(pageUrl, filters)
      ensures answer.PlansOk? ==>
        plans == answer.results && pagination == ListLinks(answer.count, answer.next, answer.previous)
        && pageInfo == InfoFor(answer.count, answer.next, answer.previous) && error.None?
      ensures answer.PlansFailed? ==>
        plans == [] && pageInfo == ErrorInfo && error == Some(LoadErrorText) && pagination == old(pagination)
      ensures !loading
    {
      request := SearchRequest(pageUrl, filters);
      match answer {
        case PlansOk(results, count, next, previous) =>
          Show(results, ListLinks(count, next, previous), InfoFor(count, next, previous), None);
        case PlansFailed =>
          Show([], pagination, ErrorInfo, Some(LoadErrorText));
      }
    }

    /** The state a finished fetch leaves. */
    method Show(ps: seq<ProductionViews.ProductionPlan>, links: ListLinks, info: PageInfo, e: Option<string>)
      modifies this`plans, this`pagination, this`pageInfo, this`error, this`loading
      ensures plans == ps && pagination == links && pageInfo == info && error == e && !loading
    {
      plans, pagination, pageInfo, error, loading := ps, links, info, e, false;
    }

    method HandleFilterChange(name: string, value: string)
      modifies this`filters
      ensures filters == SetFilter(old(filters), name, value)
    {
      filters := SetFilter(filters, name, value);
    }

    /** `handleClearSearch`. */
    method HandleClearSearch()
      modifies this`filters
      ensures filters == InitialFilters
    {
      filters := InitialFilters;
    }

    method OpenDetailModal(plan: ProductionViews.ProductionPlan)
      modifies this`detailOpen, this`detailPlan
      ensures detailOpen && detailPlan == Some(plan)
    {
      detailOpen, detailPlan := true, Some(plan);
    }

    method CloseDetailModal()
      modifies this`detailOpen, this`detailPlan
      ensures !detailOpen && detailPlan.None?
    {
      detailOpen, detailPlan := false, None;
    }

    /** `openAllocateModal`: the plan, no parts yet, loading, no error or result. */
    method OpenAllocateModal(plan: ProductionViews.ProductionPlan)
      modifies this`allocateOpen, this`allocatePlan, this`requiredParts, this`partsLoading, this`partsError, this`allocationResult
      ensures allocateOpen && allocatePlan == Some(plan) && requiredParts == [] && partsLoading
      ensures partsError.None? && allocationResult.None?
    {
      allocateOpen, allocatePlan, requiredParts, partsLoading, partsError, allocationResult := true, Some(plan), [], true, None, None;
    }

    /** `closeAllocateModal`: everything back to its initial value. */
    method CloseAllocateModal()
      modifies this`allocateOpen, this`allocatePlan, this`requiredParts, this`partsLoading, this`partsError, this`allocationResult
      ensures !allocateOpen && allocatePlan.None? && requiredParts == [] && !partsLoading
      ensures partsError.None? && allocationResult.None?
    {
      allocateOpen, allocatePlan, requiredParts, partsLoading, partsError, allocationResult := false, None, [], false, None, None;
    }

    /**
     * The required-parts effect: it runs for an open modal with a plan and no
     * result; the parts arrive with their proposed quantities, or the error.
     */
    method LoadRequiredParts(answer: PartsAnswer) returns (requested: bool)
      modifies this`requiredParts, this`partsLoading, this`partsError
      ensures requested <==> allocateOpen && allocatePlan.Some? && allocationResult.None?
      ensures !requested ==> requiredParts == old(requiredParts) && partsLoading == old(partsLoading) && partsError == old(partsError)
      ensures requested && answer.PartsOk? ==> requiredParts == ProposedRows(answer.parts) && !partsLoading && partsError.None?
      ensures requested && answer.PartsFailed? ==>
        requiredParts == old(requiredParts) && !partsLoading
        && partsError == Some(PartsErrorOf(answer.detail, answer.statusText, answer.status))
    {
      requested := allocateOpen && allocatePlan.Some? && allocationResult.None?;
      if !requested {
        return;
      }
      match answer {
        case PartsOk(parts) =>
          requiredParts, partsLoading, partsError := ProposedRows(parts), false, None;
        case PartsFailed(detail, statusText, status) =>
          partsLoading, partsError := false, Some(PartsErrorOf(detail, statusText, status));
      }
    }

    method HandleAllocationQuantityChange(partCode: string, value: string)
      modifies this`requiredParts
      ensures requiredParts == EditQuantity(old(requiredParts), partCode, value)
    {
      requiredParts := EditQuantity(requiredParts, partCode, value);
    }

    /** `handleAllocationSubmit` up to the request: nothing without a plan, an alert when no row qualifies. */
    method HandleAllocationSubmit() returns (s: Submission)
      ensures allocatePlan.None? ==> s == NoPlan
      ensures allocatePlan.Some? && AllocationItems(requiredParts) == [] ==> s == NothingToAllocate
      ensures allocatePlan.Some? && AllocationItems(requiredParts) != [] ==>
        s == SendAllocations(allocatePlan.value.id, AllocationItems(requiredParts))
    {
      if allocatePlan.None? {
        return NoPlan;
      }
      var items := AllocationItems(requiredParts);
      if items == [] {
        return NothingToAllocate;
      }
      s := SendAllocations(allocatePlan.value.id, items);
    }

    /** The answer of a sent allocation becomes the modal's result. */
    method FinishAllocation(reply: AllocationReply)
      modifies this`allocationResult
      ensures allocationResult == Some(ResultOf(reply))
    {
      allocationResult := Some(ResultOf(reply));
    }
  }
}
