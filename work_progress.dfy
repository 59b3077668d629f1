/**
 * The work-progress page (frontend/src/pages/WorkProgress.tsx): production
 * plans filtered by text, dates and a set of statuses, sorted by a column,
 * paginated by the server's links; a modal reports progress, and a
 * COMPLETED report carries quantities the page checks before sending.
 */
module WorkProgressPage {
  import opened Common
  import opened Json
  import opened ListOps
  import opened PageLinks
  import ProductionViews

  // ---------------------------------------------------------------------
  // Statuses
  // ---------------------------------------------------------------------

  /** An entry of `AVAILABLE_STATUSES`: the status key and whether it starts selected. */
  datatype StatusOption = StatusOption(key: string, defaultSelected: bool)

  function StatusKey(s: StatusOption): string { s.key }
  function StartsSelected(s: StatusOption): bool { s.defaultSelected }

  const Pending := "PENDING"
  const OnHold := "ON_HOLD"
  const Cancelled := "CANCELLED"

  const AvailableStatuses: seq<StatusOption> := [
    StatusOption(Pending, true), StatusOption(ProductionViews.InProgress, true),
    StatusOption(ProductionViews.Completed, false), StatusOption(OnHold, true),
    StatusOption(Cancelled, false)]

  /** `getDefaultSelectedStatuses`. */
  function DefaultStatuses(): seq<string>
  {
    MapSeq(Filter(AvailableStatuses, StartsSelected), StatusKey)
  }

  /** The page starts on the open plans: pending, in progress and on hold. */
  lemma DefaultStatusesAreOpen()
    ensures DefaultStatuses() == [Pending, ProductionViews.InProgress, OnHold]
  {
    OpenStatusesKept();
  }

  lemma OpenStatusesKept()
    ensures Filter(AvailableStatuses, StartsSelected) == [AvailableStatuses[0], AvailableStatuses[1], AvailableStatuses[3]]
  {
    KeepFirstSecondFourth(AvailableStatuses, StartsSelected);
  }

  /** Filtering five entries of which only the first, second and fourth pass. */
  lemma KeepFirstSecondFourth<T>(a: seq<T>, p: T -> bool)
    requires |a| == 5 && p(a[0]) && p(a[1]) && !p(a[2]) && p(a[3]) && !p(a[4])
    ensures Filter(a, p) == [a[0], a[1], a[3]]
  {
    FilterFrom(a, 4, p);
    FilterFrom(a, 3, p);
    FilterFrom(a, 2, p);
    FilterFrom(a, 1, p);
    FilterFrom(a, 0, p);
    assert a[5..] == [];
  }

  /** Filtering from index `i` looks at `a[i]`, then filters from `i + 1`. */
  lemma FilterFrom<T>(a: seq<T>, i: nat, p: T -> bool)
    requires i < |a|
    ensures Filter(a[i..], p) == (if p(a[i]) then [a[i]] else []) + Filter(a[i + 1..], p)
  {
    assert a[i..][1..] == a[i + 1..];
  }

  /** The statuses on offer are exactly the plan statuses the server knows, in the same order. */
  lemma StatusesMatchServer()
    ensures MapSeq(AvailableStatuses, StatusKey) == ProductionViews.PlanStatuses
  {
  }

  /** `handleStatusFilterChange`: a `Set` copy with the status deleted, or added at the end. */
  function ToggleStatus(statuses: seq<string>, key: string): (r: seq<string>)
  {
    if key in statuses then Filter(statuses, (s: string) => s != key) else statuses + [key]
  }

  /** A toggle flips the membership of its status and of no other. */
  lemma ToggleStatusMeaning(statuses: seq<string>, key: string)
    ensures forall s :: s in ToggleStatus(statuses, key) <==> (if s == key then key !in statuses else s in statuses)
  {
    var r := ToggleStatus(statuses, key);
    if key in statuses {
      forall s | s in statuses && s != key ensures s in r {
        var k :| 0 <= k < |statuses| && statuses[k] == s;
      }
    } else {
      assert r[|statuses|] == key;
    }
  }

  // ---------------------------------------------------------------------
  // Filters and sorting
  // ---------------------------------------------------------------------

  /** The four inputs of the search form. */
  datatype Filters = Filters(planName: string, productCode: string, startAfter: string, startBefore: string)

  const InitialFilters := Filters("", "", "", "")

  /** `handleFilterChange`: `{ ...prev, [name]: value }`; a name outside the form adds a member no one reads. */
  function SetFilter(f: Filters, name: string, value: string): (r: Filters)
    ensures name == "plan_name" ==> r == f.(planName := value)
    ensures name == "product_code" ==> r == f.(productCode := value)
    ensures name == "planned_start_after" ==> r == f.(startAfter := value)
    ensures name == "planned_start_before" ==> r == f.(startBefore := value)
    ensures name !in {"plan_name", "product_code", "planned_start_after", "planned_start_before"} ==> r == f
  {
    if name == "plan_name" then f.(planName := value)
    else if name == "product_code" then f.(productCode := value)
    else if name == "planned_start_after" then f.(startAfter := value)
    else if name == "planned_start_before" then f.(startBefore := value)
    else f
  }

  /** The sort column and whether it is descending. */
  datatype Sorting = Sorting(field: string, descending: bool)

  const StartField := "planned_start_datetime"
  const InitialSorting := Sorting(StartField, true)

  /** `handleSort`: the same column sorted ascending turns descending; any other click sorts ascending. */
  function NextSorting(s: Sorting, field: string): (r: Sorting)
    ensures r.field == field
    ensures r.descending <==> s.field == field && !s.descending
  {
    Sorting(field, s.field == field && !s.descending)
  }

  /** Clicking a column twice sorts it both ways, ascending first unless it was already ascending. */
  lemma ClickingTwiceFlips(s: Sorting, field: string)
    ensures NextSorting(NextSorting(s, field), field).descending == !NextSorting(s, field).descending
    ensures s.field != field ==> NextSorting(NextSorting(s, field), field) == Sorting(field, true)
  {
  }

  /** The `ordering` value: the field, prefixed by `-` when descending. */
  function OrderingOf(s: Sorting): (o: string)
    ensures s.descending ==> o == "-" + s.field
    ensures !s.descending ==> o == s.field
  {
    (if s.descending then "-" else "") + s.field
  }

  /** The direction can be read back from the ordering of a field that does not itself start with `-`. */
  lemma OrderingReadsBack(s: Sorting)
    requires s.field == "" || s.field[0] != '-'
    ensures var o := OrderingOf(s);
      (s.descending <==> o != "" && o[0] == '-') && (s.descending ==> o[1..] == s.field)
  {
    if s.descending {
      assert OrderingOf(s)[1..] == s.field;
    }
  }

  // ---------------------------------------------------------------------
  // The list request
  // ---------------------------------------------------------------------

  const PageSize := 10
  const PageSizeKey := "page_size"
  const OrderingKey := "ordering"
  const PlanNameKey := "plan_name"
  const ProductCodeKey := "product_code"
  const StartAfterKey := "planned_start_datetime_after"
  const StartBeforeKey := "planned_start_datetime_before"
  const StatusInKey := "status__in"
  /** The end of the day appended to the "before" date, so that the whole day is included. */
  const EndOfDay := "T23:59:59"

  /** A "before" date extended to the end of that day; no date stays empty. */
  function DayEnd(date: string): (r: string)
    ensures r == "" <==> date == ""
  {
    if date != "" then date + EndOfDay else ""
  }

  function IfGiven(key: string, value: string): seq<Param>
  {
    if value != "" then [Param(key, value)] else []
  }

  /** `status__in` is sent only for a proper, non-empty subset of the statuses, joined by commas. */
  function StatusParams(statuses: seq<string>): (ps: seq<Param>)
    ensures |ps| <= 1
    ensures ps != [] <==> 0 < |statuses| < |AvailableStatuses|
    ensures ps != [] ==> ps[0] == Param(StatusInKey, Join(statuses, ","))
  {
    if 0 < |statuses| < |AvailableStatuses| then [Param(StatusInKey, Join(statuses, ","))] else []
  }

  /** `buildApiUrl()` without a page link. */
  function PlanQuery(f: Filters, statuses: seq<string>, sorting: Sorting): seq<Param>
  {
    [Param(PageSizeKey, IntToString(PageSize)), Param(OrderingKey, OrderingOf(sorting))]
    + IfGiven(PlanNameKey, f.planName) + IfGiven(ProductCodeKey, f.productCode)
    + IfGiven(StartAfterKey, f.startAfter) + IfGiven(StartBeforeKey, DayEnd(f.startBefore))
    + StatusParams(statuses)
  }

  /** The values a piece of the query sends under `key`. */
  function PieceValues(k: string, v: string, key: string): seq<string>
  {
    if k == key && v != "" then [v] else []
  }

  lemma ValuesOfPiece(k: string, v: string, key: string)
    ensures ValuesOf(IfGiven(k, v), key) == PieceValues(k, v, key)
    ensures ValuesOf([Param(k, v)], key) == if k == key then [v] else []
  {
    assert [Param(k, v)][1..] == [];
  }

  /** What the server reads under any key: each parameter of the form in turn. */
  lemma {:induction false} PlanQueryValues(f: Filters, statuses: seq<string>, sorting: Sorting, key: string)
    ensures ValuesOf(PlanQuery(f, statuses, sorting), key) ==
      ValuesOf([Param(PageSizeKey, IntToString(PageSize))], key) + ValuesOf([Param(OrderingKey, OrderingOf(sorting))], key)
      + ValuesOf(IfGiven(PlanNameKey, f.planName), key) + ValuesOf(IfGiven(ProductCodeKey, f.productCode), key)
      + ValuesOf(IfGiven(StartAfterKey, f.startAfter), key) + ValuesOf(IfGiven(StartBeforeKey, DayEnd(f.startBefore)), key)
      + ValuesOf(StatusParams(statuses), key)
  {
    var a := [Param(PageSizeKey, IntToString(PageSize))];
    var b := [Param(OrderingKey, OrderingOf(sorting))];
    var c := IfGiven(PlanNameKey, f.planName);
    var d := IfGiven(ProductCodeKey, f.productCode);
    var e := IfGiven(StartAfterKey, f.startAfter);
    var g := IfGiven(StartBeforeKey, DayEnd(f.startBefore));
    var h := StatusParams(statuses);
    assert PlanQuery(f, statuses, sorting) == a + b + c + d + e + g + h;
    ValuesOfAppend(a + b + c + d + e + g, h, key);
    ValuesOfAppend(a + b + c + d + e, g, key);
    ValuesOfAppend(a + b + c + d, e, key);
    ValuesOfAppend(a + b + c, d, key);
    ValuesOfAppend(a + b, c, key);
    ValuesOfAppend(a, b, key);
  }

  /** `status__in` reaches the server as the joined selection, and only for a proper subset. */
  lemma ServerReadsStatusParam(f: Filters, statuses: seq<string>, sorting: Sorting)
    ensures QueryGet(PlanQuery(f, statuses, sorting), StatusInKey) ==
      if 0 < |statuses| < |AvailableStatuses| then Some(Join(statuses, ",")) else None
  {
    PlanQueryValues(f, statuses, sorting, StatusInKey);
    ValuesOfPiece(PageSizeKey, IntToString(PageSize), StatusInKey);
    ValuesOfPiece(OrderingKey, OrderingOf(sorting), StatusInKey);
    ValuesOfPiece(PlanNameKey, f.planName, StatusInKey);
    ValuesOfPiece(ProductCodeKey, f.productCode, StatusInKey);
    ValuesOfPiece(StartAfterKey, f.startAfter, StatusInKey);
    ValuesOfPiece(StartBeforeKey, DayEnd(f.startBefore), StatusInKey);
    if 0 < |statuses| < |AvailableStatuses| {
      ValuesOfPiece(StatusInKey, Join(statuses, ","), StatusInKey);
    }
    ValuesOfEmpty(PlanQuery(f, statuses, sorting), StatusInKey);
  }

  /** The server splits the joined selection back into the selected statuses when each is a plain status key. */
  lemma StatusesRoundTrip(statuses: seq<string>)
    requires statuses != []
    requires forall k :: 0 <= k < |statuses| ==> statuses[k] != "" && ',' !in statuses[k] && Strip(statuses[k]) == statuses[k]
    ensures ProductionViews.StatusList(Join(statuses, ",")) == statuses
  {
    SplitOnJoin(statuses, ',');
    StrippedNonBlankOfClean(statuses);
  }

  lemma {:induction false} StrippedNonBlankOfClean(parts: seq<string>)
    requires forall k :: 0 <= k < |parts| ==> parts[k] != "" && Strip(parts[k]) == parts[k]
    ensures ProductionViews.StrippedNonBlank(parts) == parts
    decreases |parts|
  {
    if parts != [] {
      assert forall k :: 0 <= k < |parts[1..]| ==> parts[1..][k] == parts[k + 1];
      StrippedNonBlankOfClean(parts[1..]);
      assert parts == [parts[0]] + parts[1..];
    }
  }

  /** With a proper subset of statuses selected, the server lists only plans in a selected status. */
  lemma ServerListsSelectedStatuses(f: Filters, statuses: seq<string>, sorting: Sorting, plan: ProductionViews.ProductionPlan,
                                    readDateTime: string -> Option<int>)
    requires 0 < |statuses| < |AvailableStatuses|
    requires forall k :: 0 <= k < |statuses| ==> statuses[k] != "" && ',' !in statuses[k] && Strip(statuses[k]) == statuses[k]
    requires ProductionViews.PlanListed(plan, PlanQuery(f, statuses, sorting), readDateTime)
    ensures plan.status in statuses
  {
    ServerReadsStatusParam(f, statuses, sorting);
    StatusesRoundTrip(statuses);
  }

  /** The plan-name criterion is what the server filters plan names by. */
  lemma ServerReadsPlanName(f: Filters, statuses: seq<string>, sorting: Sorting)
    ensures QueryGet(PlanQuery(f, statuses, sorting), PlanNameKey) == if f.planName != "" then Some(f.planName) else None
  {
    PlanQueryValues(f, statuses, sorting, PlanNameKey);
    ValuesOfPiece(PageSizeKey, IntToString(PageSize), PlanNameKey);
    ValuesOfPiece(OrderingKey, OrderingOf(sorting), PlanNameKey);
    ValuesOfPiece(PlanNameKey, f.planName, PlanNameKey);
    ValuesOfPiece(ProductCodeKey, f.productCode, PlanNameKey);
    ValuesOfPiece(StartAfterKey, f.startAfter, PlanNameKey);
    ValuesOfPiece(StartBeforeKey, DayEnd(f.startBefore), PlanNameKey);
    if 0 < |statuses| < |AvailableStatuses| {
      ValuesOfPiece(StatusInKey, Join(statuses, ","), PlanNameKey);
    }
    ValuesOfEmpty(PlanQuery(f, statuses, sorting), PlanNameKey);
  }

  /** The request of a fetch: a page link with `page_size` added when missing, or the built query. */
  datatype PlanRequest = FollowPlanLink(link: string, params: seq<Param>) | QueryPlanList(params: seq<Param>)

  /** The query of an absolute link; a link that does not parse is read as having none. */
  function LinkParams(link: string): seq<Param>
  {
    match ParseUrl(link)
    case Some(u) => SearchParams(u.search)
    case None => []
  }

  /** `url.searchParams.set('page_size', ...)` when the link has none: the entry is appended. */
  function WithPageSize(ps: seq<Param>): (r: seq<Param>)
    ensures ParamGet(r, PageSizeKey).Some?
    ensures |ps| <= |r| && forall k :: 0 <= k < |ps| ==> r[k] == ps[k]
  {
    if ParamGet(ps, PageSizeKey).Some? then ps
    else
      var r := ps + [Param(PageSizeKey, IntToString(PageSize))];
      assert r[|ps|].key == PageSizeKey;
      r
  }

  /** `buildApiUrl(pageUrl)`. */
  function RequestFor(pageUrl: Option<string>, f: Filters, statuses: seq<string>, sorting: Sorting): (r: PlanRequest)
    ensures r.FollowPlanLink? <==> pageUrl.Some? && pageUrl.value != ""
    ensures r.FollowPlanLink? ==> r.link == pageUrl.value && r.params == WithPageSize(LinkParams(pageUrl.value))
    ensures r.QueryPlanList? ==> r.params == PlanQuery(f, statuses, sorting)
  {
    if pageUrl.Some? && pageUrl.value != "" then FollowPlanLink(pageUrl.value, WithPageSize(LinkParams(pageUrl.value)))
    else QueryPlanList(PlanQuery(f, statuses, sorting))
  }

  // ---------------------------------------------------------------------
  // The page counter
  // ---------------------------------------------------------------------

  /** `Math.ceil(count / 10)`. */
  function TotalPages(count: int): (n: int)
    ensures count > 0 ==> n >= 1 && (n - 1) * PageSize < count <= n * PageSize
  {
    (count + PageSize - 1) / PageSize
  }

  /**
   * The page shown: the request's `page` entry, else the next link's page
   * minus one, else the previous link's page plus one, else 1. `None` is NaN.
   */
  function CurrentPage(request: seq<Param>, next: Option<string>, previous: Option<string>): (r: Option<int>)
    ensures ParamGet(request, PageKey).Some? && ParamGet(request, PageKey).value != "" ==>
      r == ParseInt(ParamGet(request, PageKey).value)
  {
    var pageParam := ParamGet(request, PageKey);
    if pageParam.Some? && pageParam.value != "" then ParseInt(pageParam.value)
    else if next.Some? && next.value != "" then
      match PageParam(next.value) case Some(n) => Some(n - 1) case None => None
    else if previous.Some? && previous.value != "" then
      match PageParam(previous.value) case Some(n) => Some(n + 1) case None => None
    else Some(1)
  }

  /** The first request has no page entry; its next link names page 2, so the counter shows page 1. */
  lemma FirstPageIsOne(request: seq<Param>, scheme: string, host: string, path: string, previous: Option<string>)
    requires ParamGet(request, PageKey).None?
    requires scheme == Http || scheme == Https
    requires host != "" && forall j :: 0 <= j < |host| ==> !EndsHost(host[j])
    requires path != "" && path[0] == '/' && '?' !in path && '#' !in path
    ensures CurrentPage(request, Some(scheme + host + path + "?" + PageKey + "=" + NatToString(2)), previous) == Some(1)
  {
    PageParamOfPageLink(scheme, host, path, 2);
  }

  /** A request that names its page shows that page. */
  lemma NamedPageIsShown(request: seq<Param>, n: nat, next: Option<string>, previous: Option<string>)
    requires ParamGet(request, PageKey) == Some(NatToString(n))
    ensures CurrentPage(request, next, previous) == Some(n)
  {
    ParseIntOfIntToString(n);
  }

  /** The line under the table. */
  datatype PageInfo =
    | NoStatusSelected
    | NoPlans
    | PageOf(current: Option<int>, total: int, count: int)
    | NoInfo

  // ---------------------------------------------------------------------
  // Progress modal
  // ---------------------------------------------------------------------

  /** The three text inputs of the modal. */
  datatype Quantities = Quantities(actual: string, good: string, defective: string)

  const BlankQuantities := Quantities("", "", "")

  /** `openModal`: a COMPLETED plan shows its planned quantity as made and good and no defects. */
  function OpenedQuantities(plan: ProductionViews.ProductionPlan): (q: Quantities)
    ensures plan.status == ProductionViews.Completed ==> q.good == q.actual && q.actual != "" && q.defective != ""
    ensures plan.status != ProductionViews.Completed ==> q == BlankQuantities
  {
    if plan.status == ProductionViews.Completed then
      Quantities(IntToString(plan.plannedQuantity), IntToString(plan.plannedQuantity), IntToString(0))
    else BlankQuantities
  }

  /** `parseInt(text, 10) || 0`: NaN counts as 0. */
  function IntOrZero(text: string): (n: int)
    ensures ParseInt(text).Some? ==> n == ParseInt(text).value
    ensures ParseInt(text).None? ==> n == 0
  {
    match ParseInt(text) case Some(v) => v case None => 0
  }

  /** `handleQuantityChange`: the edit, then `good` recomputed as made minus defective, never negative. */
  function EditQuantities(q: Quantities, name: string, value: string): (r: Quantities)
    ensures ParseInt(r.good) == Some(Max(0, IntOrZero(r.actual) - IntOrZero(r.defective)))
    ensures name == "actual" ==> r.actual == value && r.defective == q.defective
    ensures name == "defective" ==> r.defective == value && r.actual == q.actual
    ensures name != "actual" && name != "defective" ==> r.actual == q.actual && r.defective == q.defective
  {
    var edited :=
      if name == "actual" then q.(actual := value)
      else if name == "defective" then q.(defective := value)
      else if name == "good" then q.(good := value)
      else q;
    var good := Max(0, IntOrZero(edited.actual) - IntOrZero(edited.defective));
    ParseIntOfIntToString(good);
    edited.(good := IntToString(good))
  }

  /** A checked COMPLETED report: made, good and defective counts. */
  datatype Report = Report(actual: nat, good: nat, defective: nat)

  const ActualInvalid := "製作数量を正しく入力してください。"
  const GoodInvalid := "OK数量を正しく入力してください。"
  const DefectiveInvalid := "NG数量を正しく入力してください。"
  const SumTooLarge := "OK数量とNG数量の合計は、製作数量を超えることはできません。"

  datatype Checked = Accepted(report: Report) | Refused(message: string)

  /** The checks of a COMPLETED submit, in order: each count an integer ≥ 0, then good + defective ≤ made. */
  function CheckCompleted(q: Quantities): (c: Checked)
    ensures c.Accepted? <==>
      ParseInt(q.actual).Some? && ParseInt(q.actual).value >= 0
      && ParseInt(q.good).Some? && ParseInt(q.good).value >= 0
      && ParseInt(q.defective).Some? && ParseInt(q.defective).value >= 0
      && ParseInt(q.good).value + ParseInt(q.defective).value <= ParseInt(q.actual).value
    ensures c.Accepted? ==>
      c.report.actual == ParseInt(q.actual).value && c.report.good == ParseInt(q.good).value
      && c.report.defective == ParseInt(q.defective).value
    ensures c.Accepted? ==> c.report.good + c.report.defective <= c.report.actual
  {
    var actual, good, defective := ParseInt(q.actual), ParseInt(q.good), ParseInt(q.defective);
    if actual.None? || actual.value < 0 then Refused(ActualInvalid)
    else if good.None? || good.value < 0 then Refused(GoodInvalid)
    else if defective.None? || defective.value < 0 then Refused(DefectiveInvalid)
    else if good.value + defective.value > actual.value then Refused(SumTooLarge)
    else Accepted(Report(actual.value, good.value, defective.value))
  }

  /** After any edit of valid counts with no more defects than made, the report is accepted and adds up exactly. */
  lemma EditedReportAccepted(q: Quantities, name: string, value: string)
    requires var r := EditQuantities(q, name, value);
      ParseInt(r.actual).Some? && ParseInt(r.defective).Some?
      && 0 <= ParseInt(r.defective).value <= ParseInt(r.actual).value
    ensures var c := CheckCompleted(EditQuantities(q, name, value));
      c.Accepted? && c.report.good + c.report.defective == c.report.actual
  {
  }

  /** A COMPLETED plan opened and submitted unchanged reports its planned quantity, all good. */
  lemma OpenedCompletedAccepted(plan: ProductionViews.ProductionPlan)
    requires plan.status == ProductionViews.Completed
    ensures CheckCompleted(OpenedQuantities(plan)) == Accepted(Report(plan.plannedQuantity, plan.plannedQuantity, 0))
  {
    ParseIntOfIntToString(plan.plannedQuantity);
    ParseIntOfIntToString(0);
  }

  /** The body of `update-progress`: the status, and the three counts for COMPLETED. */
  datatype ProgressPayload = ProgressPayload(status: string, report: Option<Report>)

  /** The JSON body as the server reads it. */
  function PayloadData(p: ProgressPayload): (d: Record)
    ensures "status" in d && d["status"] == Str(p.status)
    ensures p.report.None? ==> d.Keys == {"status"}
  {
    match p.report
    case None => map["status" := Str(p.status)]
    case Some(r) => map["status" := Str(p.status), "actual_quantity" := Num(r.actual),
                        "good_quantity" := Num(r.good), "defective_quantity" := Num(r.defective)]
  }

  /** Every checked report is one the server accepts, with the same counts. */
  lemma ReportPassesServer(r: Report)
    ensures ProductionViews.CompletedQuantities(PayloadData(ProgressPayload(ProductionViews.Completed, Some(r))))
      == ProductionViews.Quantities(r.good, Some(r.actual), Some(r.defective))
  {
    var d := PayloadData(ProgressPayload(ProductionViews.Completed, Some(r)));
    assert DataGet(d, "good_quantity", Null) == Num(r.good);
    assert DataGet(d, "actual_quantity", Null) == Num(r.actual);
    assert DataGet(d, "defective_quantity", Null) == Num(r.defective);
  }

  /** The answer of `update-progress`. */
  datatype ProgressReply = ProgressOk | ProgressFailed(error: Option<string>, detail: Option<string>) | ProgressRejected(message: string)

  const ProgressFailedText := "進捗の登録に失敗しました。"

  /** `data.error || data.detail || '進捗の登録に失敗しました。'`. */
  function ProgressFailure(error: Option<string>, detail: Option<string>): (m: string)
    ensures error.Some? && error.value != "" ==> m == error.value
    ensures (error.None? || error.value == "") && detail.Some? && detail.value != "" ==> m == detail.value
    ensures (error.None? || error.value == "") && (detail.None? || detail.value == "") ==> m == ProgressFailedText
  {
    OptOrElse(error, OptOrElse(detail, ProgressFailedText))
  }

  // ---------------------------------------------------------------------
  // Fetch answers
  // ---------------------------------------------------------------------

  /** The list answer: a page of plans, or a failure with its message. */
  datatype PlansAnswer = PlansOk(results: seq<ProductionViews.ProductionPlan>, count: int, next: Option<string>, previous: Option<string>)
                       | PlansFailed(message: string)

  const LoadFailedPrefix := "データの読み込みに失敗しました: "

  /** The list pagination the page keeps. */
  datatype ListLinks = ListLinks(count: int, next: Option<string>, previous: Option<string>)

  const NoLinks := ListLinks(0, None, None)

  /** The counter line after an OK answer to a request. */
  function InfoFor(request: seq<Param>, count: int, next: Option<string>, previous: Option<string>): (info: PageInfo)
    ensures count > 0 <==> info.PageOf?
    ensures info.PageOf? ==> info.total == TotalPages(count) && info.count == count && info.current == CurrentPage(request, next, previous)
    ensures count <= 0 ==> info == NoPlans
  {
    if count > 0 then PageOf(CurrentPage(request, next, previous), TotalPages(count), count) else NoPlans
  }

  // ---------------------------------------------------------------------
  // The page
  // ---------------------------------------------------------------------

  class Screen {
    var plans: seq<ProductionViews.ProductionPlan>
    var loading: bool
    var error: Option<string>
    var pagination: ListLinks
    var pageInfo: PageInfo
    var filters: Filters
    var statusFilters: seq<string>
    var sorting: Sorting
    var isModalOpen: bool
    var selectedPlan: Option<ProductionViews.ProductionPlan>
    var modalQuantities: Quantities
    var modalStatus: string
    var modalError: string

    constructor ()
      ensures plans == [] && loading && error.None? && pagination == NoLinks && pageInfo == NoInfo
      ensures filters == InitialFilters && statusFilters == DefaultStatuses() && sorting == InitialSorting
      ensures !isModalOpen && selectedPlan.None? && modalQuantities == BlankQuantities
      ensures modalStatus == "" && modalError == ""
    {
      plans := [];
      loading := true;
      error := None;
      pagination := NoLinks;
      pageInfo := NoInfo;
      filters := InitialFilters;
      statusFilters := DefaultStatuses();
      sorting := InitialSorting;
      isModalOpen := false;
      selectedPlan := None;
      modalQuantities := BlankQuantities;
      modalStatus := "";
      modalError := "";
    }

    /**
     * `fetchProductionPlans(pageUrl)`: with no status selected the list is
     * emptied and nothing is requested; otherwise the request is made and
     * its answer shown, or the error with an empty list.
     */
    method FetchProductionPlans(pageUrl: Option<string>, answer: PlansAnswer) returns (request: Option<PlanRequest>)
      modifies this
      ensures !loading
      ensures old(statusFilters) == [] ==>
        request.None? && plans == [] && pagination == NoLinks && pageInfo == NoStatusSelected && error.None?
      ensures old(statusFilters) != [] ==> request == Some(RequestFor(pageUrl, filters, statusFilters, sorting))
      ensures old(statusFilters) != [] && answer.PlansOk? ==>
        error.None? && plans == answer.results
        && pagination == ListLinks(answer.count, answer.next, answer.previous)
        && pageInfo == InfoFor(request.value.params, answer.count, answer.next, answer.previous)
      ensures old(statusFilters) != [] && answer.PlansFailed? ==>
        error == Some(LoadFailedPrefix + answer.message) && plans == [] && pageInfo == NoInfo
        && unchanged(this`pagination)
      ensures unchanged(this`filters, this`statusFilters, this`sorting, this`isModalOpen, this`selectedPlan,
                        this`modalQuantities, this`modalStatus, this`modalError)
    {
      if statusFilters == [] {
        Show([], NoLinks, NoStatusSelected, None);
        return None;
      }
      var r := RequestFor(pageUrl, filters, statusFilters, sorting);
      request := Some(r);
      match answer {
        case PlansOk(results, count, next, previous) =>
          Show(results, ListLinks(count, next, previous), InfoFor(r.params, count, next, previous), None);
        case PlansFailed(message) =>
          Show([], pagination, NoInfo, Some(LoadFailedPrefix + message));
      }
    }

    /** The state a finished fetch leaves. */
    method Show(ps: seq<ProductionViews.ProductionPlan>, links: ListLinks, info: PageInfo, e: Option<string>)
      modifies this`plans, this`pagination, this`pageInfo, this`error, this`loading
      ensures plans == ps && pagination == links && pageInfo == info && error == e && !loading
    {
      plans, pagination, pageInfo, error, loading := ps, links, info, e, false;
    }

    /** `handleFilterChange`. */
    method HandleFilterChange(name: string, value: string)
      modifies this`filters
      ensures filters == SetFilter(old(filters), name, value)
    {
      filters := SetFilter(filters, name, value);
    }

    /** `handleStatusFilterChange`. */
    method HandleStatusFilterChange(key: string)
      modifies this`statusFilters
      ensures statusFilters == ToggleStatus(old(statusFilters), key)
    {
      statusFilters := ToggleStatus(statusFilters, key);
    }

    /** `handleReset`: the initial filters, statuses and sorting. */
    method HandleReset()
      modifies this`filters, this`statusFilters, this`sorting
      ensures filters == InitialFilters && statusFilters == DefaultStatuses() && sorting == InitialSorting
    {
      filters := InitialFilters;
      statusFilters := DefaultStatuses();
      sorting := InitialSorting;
    }

    /** `handleSort`. */
    method HandleSort(field: string)
      modifies this`sorting
      ensures sorting == NextSorting(old(sorting), field)
    {
      sorting := NextSorting(sorting, field);
    }

    /** `openModal`: the plan, its status, no error, and the quantities for its status. */
    method OpenModal(plan: ProductionViews.ProductionPlan)
      modifies this`selectedPlan, this`modalStatus, this`modalError, this`modalQuantities, this`isModalOpen
      ensures selectedPlan == Some(plan) && modalStatus == plan.status && modalError == ""
      ensures modalQuantities == OpenedQuantities(plan) && isModalOpen
    {
      selectedPlan := Some(plan);
      modalStatus := plan.status;
      modalError := "";
      modalQuantities := OpenedQuantities(plan);
      isModalOpen := true;
    }

    /** `closeModal`: the quantities and status stay as they were. */
    method CloseModal()
      modifies this`isModalOpen, this`selectedPlan
      ensures !isModalOpen && selectedPlan.None?
    {
      isModalOpen := false;
      selectedPlan := None;
    }

    method HandleModalStatusChange(status: string)
      modifies this`modalStatus
      ensures modalStatus == status
    {
      modalStatus := status;
    }

    /** `handleQuantityChange`. */
    method HandleQuantityChange(name: string, value: string)
      modifies this`modalQuantities
      ensures modalQuantities == EditQuantities(old(modalQuantities), name, value)
    {
      modalQuantities := EditQuantities(modalQuantities, name, value);
    }

    /**
     * `handleProgressSubmit` up to the request: nothing without a plan or a
     * status; a COMPLETED report is checked and refused with its message, or
     * sent with its counts; any other status is sent alone.
     */
    method HandleProgressSubmit() returns (payload: Option<ProgressPayload>)
      modifies this`modalError
      ensures (selectedPlan.None? || modalStatus == "") ==> payload.None? && modalError == ""
      ensures selectedPlan.Some? && modalStatus != "" && modalStatus != ProductionViews.Completed ==>
        payload == Some(ProgressPayload(modalStatus, None)) && modalError == ""
      ensures selectedPlan.Some? && modalStatus == ProductionViews.Completed ==>
        match CheckCompleted(modalQuantities)
        case Refused(message) => payload.None? && modalError == message
        case Accepted(report) => payload == Some(ProgressPayload(modalStatus, Some(report))) && modalError == ""
    {
      modalError := "";
      if selectedPlan.None? || modalStatus == "" {
        return None;
      }
      if modalStatus == ProductionViews.Completed {
        match CheckCompleted(modalQuantities)
        case Refused(message) =>
          modalError := message;
          return None;
        case Accepted(report) =>
          return Some(ProgressPayload(modalStatus, Some(report)));
      }
      payload := Some(ProgressPayload(modalStatus, None));
    }

    /** The answer of a sent report: success closes the modal (and the list is fetched again), failure shows its message. */
    method FinishProgress(reply: ProgressReply)
      modifies this`isModalOpen, this`selectedPlan, this`modalError
      ensures reply.ProgressOk? ==> !isModalOpen && selectedPlan.None? && modalError == old(modalError)
      ensures reply.ProgressFailed? ==>
        modalError == ProgressFailure(reply.error, reply.detail) && isModalOpen == old(isModalOpen) && selectedPlan == old(selectedPlan)
      ensures reply.ProgressRejected? ==>
        modalError == reply.message && isModalOpen == old(isModalOpen) && selectedPlan == old(selectedPlan)
    {
      match reply
      case ProgressOk => CloseModal();
      case ProgressFailed(e, d) => modalError := ProgressFailure(e, d);
      case ProgressRejected(m) => modalError := m;
    }
  }
}
