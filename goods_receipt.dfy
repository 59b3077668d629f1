/**
 * The desktop goods-receipt page (frontend/src/pages/GoodsReceipt.tsx): a
 * list of purchase orders filtered by `search_<key>` parameters (pending
 * orders by default), whose columns and search inputs come from the display
 * settings of both purchase orders and goods receipts, and a receipt modal
 * that accepts any positive quantity.
 */
module GoodsReceiptPage {
  import opened Common
  import opened Json
  import opened BaseModels
  import opened ListOps
  import opened SettingsColumns
  import opened PageLinks
  import MobileGoodsReceipt

  // ---------------------------------------------------------------------
  // Filters and the list request
  // ---------------------------------------------------------------------

  function ParamKey(p: Param): string { p.key }

  /** The filters start with the status `pending` only. */
  const InitialFilters: seq<Param> := [Param("status", "pending")]

  /** `setFilters(prev => ({...prev, [name]: value}))`: a new key goes last, a present key keeps its place. */
  function SetFilter(filters: seq<Param>, name: string, value: string): (r: seq<Param>)
  {
    Upsert(filters, Param(name, value), ParamKey)
  }

  /** Setting a filter keeps the keys distinct and makes `value` the value under `name`. */
  lemma SetFilterMeaning(filters: seq<Param>, name: string, value: string)
    requires DistinctBy(filters, ParamKey)
    ensures var r := SetFilter(filters, name, value);
      DistinctBy(r, ParamKey) && Param(name, value) in r
      && (forall i :: 0 <= i < |filters| && filters[i].key != name ==> r[i] == filters[i])
      && (forall p :: p in r ==> p in filters || p == Param(name, value))
  {
    UpsertMeaning(filters, Param(name, value), ParamKey);
  }

  function HasValue(p: Param): bool { p.value != "" }

  function SearchParam(p: Param): Param { Param("search_" + p.key, p.value) }

  /** One `search_<key>` parameter per filter with a non-empty value, in the filters' order. */
  function FilterQuery(filters: seq<Param>): (q: seq<Param>)
    ensures |q| <= |filters|
    ensures forall k :: 0 <= k < |q| ==> exists p :: p in filters && p.value != "" && q[k] == SearchParam(p)
    ensures forall p :: p in filters && p.value != "" ==> SearchParam(p) in q
  {
    var kept := Filter(filters, HasValue);
    var q := MapSeq(kept, SearchParam);
    assert forall k :: 0 <= k < |q| ==> kept[k] in filters && q[k] == SearchParam(kept[k]);
    assert forall p :: p in kept ==> SearchParam(p) in q by {
      forall p | p in kept ensures SearchParam(p) in q {
        var i :| 0 <= i < |kept| && kept[i] == p;
        assert q[i] == SearchParam(p);
      }
    }
    q
  }

  /** The first request asks for pending orders only. */
  lemma InitialQueryPending()
    ensures FilterQuery(InitialFilters) == [Param("search_status", "pending")]
  {
    var kept := Filter(InitialFilters, HasValue);
    assert kept == InitialFilters by {
      FilterAll(InitialFilters, HasValue);
    }
    assert "search_" + "status" == "search_status";
    assert FilterQuery(InitialFilters)[0] == SearchParam(InitialFilters[0]);
  }

  /** Different filter keys give different parameter names. */
  lemma SearchKeyInjective(a: string, b: string)
    ensures "search_" + a == "search_" + b <==> a == b
  {
    if "search_" + a == "search_" + b {
      assert a == ("search_" + a)[7..];
      assert b == ("search_" + b)[7..];
    }
  }

  /** A filter whose value was blanked is no longer sent. */
  lemma BlankFilterNotSent(r: seq<Param>, key: string)
    requires DistinctBy(r, ParamKey)
    requires Param(key, "") in r
    ensures forall k :: 0 <= k < |FilterQuery(r)| ==> FilterQuery(r)[k].key != SearchParam(Param(key, "")).key
  {
    var q := FilterQuery(r);
    var j :| 0 <= j < |r| && r[j] == Param(key, "");
    forall k | 0 <= k < |q| ensures q[k].key != "search_" + key {
      var p :| p in r && p.value != "" && q[k] == SearchParam(p);
      var i :| 0 <= i < |r| && r[i] == p;
      assert i != j;
      assert ParamKey(r[i]) != ParamKey(r[j]);
      SearchKeyInjective(p.key, key);
    }
  }

  /** Clearing the status filter stops sending it. */
  lemma BlankStatusNotSent(filters: seq<Param>)
    requires DistinctBy(filters, ParamKey)
    ensures forall k :: 0 <= k < |FilterQuery(SetFilter(filters, "status", ""))| ==>
      FilterQuery(SetFilter(filters, "status", ""))[k].key != SearchParam(Param("status", "")).key
  {
    SetFilterMeaning(filters, "status", "");
    BlankFilterNotSent(SetFilter(filters, "status", ""), "status");
  }

  // ---------------------------------------------------------------------
  // Merging the two data types' fields and settings
  // ---------------------------------------------------------------------

  /** An entry of the model-fields answer as this page reads it. */
  datatype FieldInfo = FieldInfo(name: string, verboseName: string, fieldType: string)

  function FieldName(f: FieldInfo): string { f.name }

  /**
   * The name-to-field map: every purchase-order field is set (a later one
   * with the same name replaces an earlier one); a goods-receipt field is
   * added only when its name is absent.
   */
  function FieldMap(po: seq<FieldInfo>, gr: seq<FieldInfo>): seq<FieldInfo>
  {
    AppendNew(UpsertAll([], po, FieldName), gr, FieldName)
  }

  /** `verboseNameMap.get(name)` together with `fieldTypeMap.get(name)`. */
  function FieldFor(fields: seq<FieldInfo>, name: string): (r: Option<FieldInfo>)
    ensures r.None? <==> forall k :: 0 <= k < |fields| ==> fields[k].name != name
    ensures r.Some? ==> r.value in fields && r.value.name == name
  {
    match IndexOf(fields, FieldName, name)
    case None => None
    case Some(i) => Some(fields[i])
  }

  /** No name is mapped twice, and every purchase-order field not overridden by a later one is in the map. */
  lemma FieldMapShape(po: seq<FieldInfo>, gr: seq<FieldInfo>)
    ensures DistinctBy(FieldMap(po, gr), FieldName)
    ensures var u := UpsertAll([], po, FieldName);
      |FieldMap(po, gr)| >= |u| && FieldMap(po, gr)[..|u|] == u
  {
    UpsertAllMeaning([], po, FieldName);
    AppendNewMeaning(UpsertAll([], po, FieldName), gr, FieldName);
  }

  /** A purchase-order field wins over any goods-receipt field of the same name; among purchase-order fields the last wins. */
  lemma PurchaseOrderFieldWins(po: seq<FieldInfo>, gr: seq<FieldInfo>, k: nat)
    requires k < |po|
    requires forall j :: k < j < |po| ==> po[j].name != po[k].name
    ensures FieldFor(FieldMap(po, gr), po[k].name) == Some(po[k])
  {
    var u := UpsertAll([], po, FieldName);
    var m := FieldMap(po, gr);
    UpsertAllMeaning([], po, FieldName);
    FieldMapShape(po, gr);
    var p :| 0 <= p < |u| && u[p] == po[k];
    assert m[p] == u[p] by {
      assert m[..|u|][p] == m[p];
    }
    IndexOfDistinct(m, FieldName, p);
  }

  /** A goods-receipt field fills in a name no purchase-order field has; the first one of that name is kept. */
  lemma GoodsReceiptFieldFillsGap(po: seq<FieldInfo>, gr: seq<FieldInfo>, k: nat)
    requires k < |gr|
    requires forall j :: 0 <= j < |po| ==> po[j].name != gr[k].name
    requires forall j :: 0 <= j < k ==> gr[j].name != gr[k].name
    ensures FieldFor(FieldMap(po, gr), gr[k].name) == Some(gr[k])
  {
    var u := UpsertAll([], po, FieldName);
    var m := FieldMap(po, gr);
    UpsertAllMeaning([], po, FieldName);
    assert IndexOf(u, FieldName, gr[k].name).None? by {
      forall i | 0 <= i < |u| ensures u[i].name != gr[k].name {
        assert u[i] in u;
      }
    }
    AppendNewFirstWins(u, gr, FieldName, k);
    FieldMapShape(po, gr);
    var p :| 0 <= p < |m| && m[p] == gr[k];
    IndexOfDistinct(m, FieldName, p);
  }

  function SettingName(s: ModelDisplaySetting): string { s.modelFieldName }

  /**
   * The settings map: purchase-order settings then goods-receipt settings
   * are set in turn, so a field keeps the place of its first setting and the
   * value of its last.
   */
  function MergedSettings(po: seq<ModelDisplaySetting>, gr: seq<ModelDisplaySetting>): seq<ModelDisplaySetting>
  {
    UpsertAll([], po + gr, SettingName)
  }

  /** No field has two settings, and every field with a setting has one. */
  lemma MergedSettingsShape(po: seq<ModelDisplaySetting>, gr: seq<ModelDisplaySetting>)
    ensures var m := MergedSettings(po, gr);
      DistinctBy(m, SettingName)
      && (forall s :: s in m ==> s in po || s in gr)
      && (forall k :: 0 <= k < |po| ==> IndexOf(m, SettingName, po[k].modelFieldName).Some?)
      && (forall k :: 0 <= k < |gr| ==> IndexOf(m, SettingName, gr[k].modelFieldName).Some?)
  {
    UpsertAllMeaning([], po + gr, SettingName);
    forall k | 0 <= k < |po| ensures IndexOf(MergedSettings(po, gr), SettingName, po[k].modelFieldName).Some? {
      assert (po + gr)[k] == po[k];
    }
    forall k | 0 <= k < |gr| ensures IndexOf(MergedSettings(po, gr), SettingName, gr[k].modelFieldName).Some? {
      assert (po + gr)[|po| + k] == gr[k];
    }
  }

  /** A goods-receipt setting overrides the purchase-order setting of the same field. */
  lemma GoodsReceiptSettingWins(po: seq<ModelDisplaySetting>, gr: seq<ModelDisplaySetting>, k: nat)
    requires k < |gr|
    requires forall j :: k < j < |gr| ==> gr[j].modelFieldName != gr[k].modelFieldName
    ensures gr[k] in MergedSettings(po, gr)
  {
    var items := po + gr;
    UpsertAllMeaning([], items, SettingName);
    assert items[|po| + k] == gr[k];
    forall j | |po| + k < j < |items| ensures SettingName(items[j]) != SettingName(items[|po| + k]) {
      assert items[j] == gr[j - |po|];
    }
  }

  /** A purchase-order setting survives when no goods-receipt setting and no later one names its field. */
  lemma PurchaseOrderSettingKept(po: seq<ModelDisplaySetting>, gr: seq<ModelDisplaySetting>, k: nat)
    requires k < |po|
    requires forall j :: k < j < |po| ==> po[j].modelFieldName != po[k].modelFieldName
    requires forall j :: 0 <= j < |gr| ==> gr[j].modelFieldName != po[k].modelFieldName
    ensures po[k] in MergedSettings(po, gr)
  {
    var items := po + gr;
    UpsertAllMeaning([], items, SettingName);
    assert items[k] == po[k];
    forall j | k < j < |items| ensures SettingName(items[j]) != SettingName(items[k]) {
      if j < |po| {
        assert items[j] == po[j];
      } else {
        assert items[j] == gr[j - |po|];
      }
    }
  }

  const UnknownType := "Unknown"

  /** A merged setting with `verbose_name: map.get(name) || name` and `field_type: map.get(name) || 'Unknown'`. */
  function ColumnOf(fields: seq<FieldInfo>, s: ModelDisplaySetting): (c: Column)
    ensures c.setting == s
    ensures FieldFor(fields, s.modelFieldName).None? ==> c.verboseName == s.modelFieldName && c.fieldType == Some(UnknownType)
    ensures FieldFor(fields, s.modelFieldName).Some? ==>
      c.verboseName == OrElse(FieldFor(fields, s.modelFieldName).value.verboseName, s.modelFieldName)
      && c.fieldType == Some(OrElse(FieldFor(fields, s.modelFieldName).value.fieldType, UnknownType))
  {
    var f := FieldFor(fields, s.modelFieldName);
    Column(s,
           VerboseOr(if f.Some? then Some(f.value.verboseName) else None, s.modelFieldName),
           Some(OptOrElse(if f.Some? then Some(f.value.fieldType) else None, UnknownType)))
  }

  /** The verbose name of a column is never blank when its field name is not. */
  lemma ColumnNamed(fields: seq<FieldInfo>, s: ModelDisplaySetting)
    requires s.modelFieldName != ""
    ensures ColumnOf(fields, s).verboseName != "" && ColumnOf(fields, s).fieldType.value != ""
  {
  }

  /** The merged settings with their names and types, in the map's order. */
  function MergedColumns(fields: seq<FieldInfo>, merged: seq<ModelDisplaySetting>): (cs: seq<Column>)
    ensures |cs| == |merged|
    ensures forall k :: 0 <= k < |merged| ==> cs[k] == ColumnOf(fields, merged[k])
  {
    seq(|merged|, k requires 0 <= k < |merged| => ColumnOf(fields, merged[k]))
  }

  /** The inputs shown above the list: the search fields except `status`, which has its own select. */
  function SearchInputs(searchFields: seq<Column>): (r: seq<Column>)
    ensures forall c :: c in r <==> c in searchFields && c.setting.modelFieldName != "status"
  {
    var r := Filter(searchFields, NotStatus);
    forall c | c in searchFields && c.setting.modelFieldName != "status" ensures c in r {
      var k :| 0 <= k < |searchFields| && searchFields[k] == c;
    }
    r
  }

  function NotStatus(c: Column): bool { c.setting.modelFieldName != "status" }

  // ---------------------------------------------------------------------
  // The list body
  // ---------------------------------------------------------------------

  /** What a cell shows: a value, NaN, a formatted date, or `N/A`. */
  datatype Cell = Shown(v: Value) | NotANumber | DateText(raw: Value) | NotAvailable

  const StatusLabels: map<string, string> := map[
    "pending" := "未入庫",
    "partially_received" := "一部入庫",
    "fully_received" := "全量入庫済み",
    "canceled" := "キャンセル"]

  /**
   * The cell of a field: the remaining quantity is computed, dates are
   * formatted, the status is shown by its label or as stored, anything else
   * as stored; a missing or null value is `N/A`.
   */
  function CellValue(order: Record, field: string): (c: Cell)
    ensures field == "remaining_quantity" ==>
      (MobileGoodsReceipt.Remaining(order).Some? <==> c.Shown?)
      && (c.Shown? ==> c.v == Num(MobileGoodsReceipt.Remaining(order).value))
    ensures field == "status" && "status" in order && order["status"].Str? && order["status"].s in StatusLabels ==>
      c == Shown(Str(StatusLabels[order["status"].s]))
  {
    if field == "remaining_quantity" then
      match MobileGoodsReceipt.Remaining(order)
      case Some(n) => Shown(Num(n))
      case None => NotANumber
    else if field == "expected_arrival" || field == "order_date" then
      DateText(if field in order then order[field] else Null)
    else if field == "status" then
      if "status" in order && order["status"].Str? && order["status"].s in StatusLabels then Shown(Str(StatusLabels[order["status"].s]))
      else if "status" !in order || order["status"].Null? then NotAvailable
      else Shown(order["status"])
    else if field !in order || order[field].Null? then NotAvailable
    else Shown(order[field])
  }

  /** A status outside the four labels shows as stored; a missing one shows `N/A`. */
  lemma UnknownStatusShownRaw(order: Record)
    requires "status" in order && order["status"].Str? && order["status"].s !in StatusLabels
    ensures CellValue(order, "status") == Shown(order["status"])
    ensures CellValue(order - {"status"}, "status") == NotAvailable
  {
  }

  /** `disabled={order.status !== 'pending' || (order.quantity - order.received_quantity <= 0)}`, negated. */
  predicate ReceiptEnabled(order: Record)
  {
    "status" in order && order["status"] == Str("pending")
    && !(MobileGoodsReceipt.Remaining(order).Some? && MobileGoodsReceipt.Remaining(order).value <= 0)
  }

  // ---------------------------------------------------------------------
  // The receipt modal
  // ---------------------------------------------------------------------

  const NotPositiveText := "入庫数量は正の整数である必要があります。"
  const ReceiptFailed := "入庫処理に失敗しました。"

  /** The form `openReceiptModal` fills in: the remaining quantity when positive, else blank. */
  function ReceiptForm(order: Record): (form: Record)
    ensures form.Keys == {"received_quantity", "location", "warehouse"}
    ensures form["location"] == FieldOrBlank(order, "location") && form["warehouse"] == FieldOrBlank(order, "warehouse")
  {
    var remaining := MobileGoodsReceipt.Remaining(order);
    map[
      "received_quantity" := (if remaining.Some? && remaining.value > 0 then Num(remaining.value) else Str("")),
      "location" := FieldOrBlank(order, "location"),
      "warehouse" := FieldOrBlank(order, "warehouse")
    ]
  }

  /** `parseInt(received_quantity, 10)` when it is a positive number; no upper bound is checked. */
  function AcceptedQuantity(form: Record): (r: Option<int>)
    ensures r.Some? ==> r.value > 0
    ensures r.Some? <==> MobileGoodsReceipt.ParseFormValue(form, "received_quantity").Some?
                          && MobileGoodsReceipt.ParseFormValue(form, "received_quantity").value > 0
  {
    var q := MobileGoodsReceipt.ParseFormValue(form, "received_quantity");
    if q.Some? && q.value > 0 then q else None
  }

  /** Opening an order whose button is enabled, with a known remaining quantity, pre-fills an accepted quantity equal to it. */
  lemma EnabledOrderFormAccepted(order: Record)
    requires ReceiptEnabled(order) && MobileGoodsReceipt.Remaining(order).Some?
    ensures AcceptedQuantity(ReceiptForm(order)) == MobileGoodsReceipt.Remaining(order)
  {
  }

  /** With nothing left the pre-filled quantity is blank and refused. */
  lemma NothingLeftFormRefused(order: Record)
    requires MobileGoodsReceipt.Remaining(order).Some? && MobileGoodsReceipt.Remaining(order).value <= 0
    ensures AcceptedQuantity(ReceiptForm(order)).None?
  {
    assert ParseInt("") == None;
  }

  /** Unlike the mobile page, any positive quantity passes, even one above the remaining quantity. */
  lemma NoUpperBound(order: Record, n: int)
    requires n > 0
    ensures AcceptedQuantity(ReceiptForm(order)["received_quantity" := Num(n)]) == Some(n)
  {
  }


  /**
   * The five parallel answers: each settings list is `None` when its request
   * failed, a failed field list reads as empty, and `data` is `None` when the
   * list request failed.
   */
  datatype Answers = Answers(
    poSettings: Option<seq<ModelDisplaySetting>>,
    grSettings: Option<seq<ModelDisplaySetting>>,
    poFields: seq<FieldInfo>,
    grFields: seq<FieldInfo>,
    data: Option<PageData>)

  datatype Fetched = Answered(answers: Answers) | FetchRejected

  /** The columns built from the answers: none unless both settings requests succeeded. */
  function AnsweredColumns(a: Answers): seq<Column>
  {
    if a.poSettings.Some? && a.grSettings.Some? then
      MergedColumns(FieldMap(a.poFields, a.grFields), MergedSettings(a.poSettings.value, a.grSettings.value))
    else []
  }

  /** A failed settings request leaves the page with no columns and no search inputs. */
  lemma SettingsFailureEmpties(a: Answers)
    requires a.poSettings.None? || a.grSettings.None?
    ensures VisibleColumns(AnsweredColumns(a)) == [] && SearchableFields(AnsweredColumns(a)) == []
  {
  }

  const FetchError := "データの取得中にエラーが発生しました。"

  class Screen {
    var purchaseOrders: seq<Record>
    var pagination: Pagination
    var isLoading: bool
    var error: Option<string>
    var displaySettings: seq<Column>
    var searchFields: seq<Column>
    var filters: seq<Param>
    var modalOpen: bool
    var modalOrder: Option<Record>
    var modalError: string
    var modalSuccess: string
    var receiptFormData: Record

    constructor ()
      ensures purchaseOrders == [] && pagination == InitialPagination && isLoading && error.None?
      ensures displaySettings == [] && searchFields == [] && filters == InitialFilters
      ensures !modalOpen && modalOrder.None? && modalError == "" && modalSuccess == ""
      ensures receiptFormData == map["received_quantity" := Str(""), "location" := Str(""), "warehouse" := Str("")]
    {
      purchaseOrders := [];
      pagination := InitialPagination;
      isLoading := true;
      error := None;
      displaySettings := [];
      searchFields := [];
      filters := InitialFilters;
      modalOpen := false;
      modalOrder := None;
      modalError := "";
      modalSuccess := "";
      receiptFormData := map["received_quantity" := Str(""), "location" := Str(""), "warehouse" := Str("")];
    }

    method HandleFilterChange(name: string, value: string)
      modifies this
      ensures filters == SetFilter(old(filters), name, value)
      ensures purchaseOrders == old(purchaseOrders) && displaySettings == old(displaySettings)
      ensures searchFields == old(searchFields) && modalOpen == old(modalOpen)
    {
      filters := SetFilter(filters, name, value);
    }

    /**
     * `fetchPurchaseOrders`: the list request, then the answers. The columns
     * and search fields are rebuilt when both settings requests succeeded and
     * emptied otherwise; the list and pagination are replaced when the list
     * request succeeded, and the error is set otherwise.
     */
    method FetchPurchaseOrders(pageUrl: Option<string>, answer: Fetched) returns (request: ListRequest)
      modifies this
      ensures request == ListRequestFor(pageUrl, FilterQuery(filters))
      ensures !isLoading
      ensures answer.FetchRejected? ==>
        error == Some(FetchError) && unchanged(this`displaySettings, this`searchFields, this`purchaseOrders, this`pagination)
      ensures answer.Answered? ==>
        displaySettings == VisibleColumns(AnsweredColumns(answer.answers))
        && searchFields == SearchableFields(AnsweredColumns(answer.answers))
      ensures answer.Answered? && answer.answers.data.None? ==>
        error == Some(FetchError) && unchanged(this`purchaseOrders, this`pagination)
      ensures answer.Answered? && answer.answers.data.Some? ==>
        var d := answer.answers.data.value;
        error.None? && purchaseOrders == d.results
        && pagination == PaginationOf(d)
      ensures unchanged(this`filters, this`modalOpen, this`modalOrder, this`modalError, this`modalSuccess, this`receiptFormData)
    {
      var display, search := displaySettings, searchFields;
      if answer.Answered? {
        display, search := BuildColumns(answer.answers);
      }
      if answer.FetchRejected? {
        error := Some(FetchError);
      } else {
        displaySettings, searchFields := display, search;
        if answer.answers.data.None? {
          error := Some(FetchError);
        } else {
          error := None;
          purchaseOrders := answer.answers.data.value.results;
          pagination := PaginationOf(answer.answers.data.value);
        }
      }
      isLoading := false;
      request := ListRequestFor(pageUrl, FilterQuery(filters));
    }

    /** The columns: the field and settings maps are built only when both settings requests succeeded. */
    static method BuildColumns(a: Answers) returns (display: seq<Column>, search: seq<Column>)
      ensures display == VisibleColumns(AnsweredColumns(a)) && search == SearchableFields(AnsweredColumns(a))
    {
      var cs := [];
      if a.poSettings.Some? && a.grSettings.Some? {
        var fields := BuildFieldMap(a.poFields, a.grFields);
        var merged := MergeSettings(a.poSettings.value, a.grSettings.value);
        cs := MergedColumns(fields, merged);
      }
      display := VisibleColumns(cs);
      search := SearchableFields(cs);
    }

    /** The two `forEach` loops over the field lists. */
    static method BuildFieldMap(po: seq<FieldInfo>, gr: seq<FieldInfo>) returns (fields: seq<FieldInfo>)
      ensures fields == FieldMap(po, gr)
    {
      fields := [];
      var i := 0;
      while i < |po|
        invariant 0 <= i <= |po|
        invariant UpsertAll(fields, po[i..], FieldName) == UpsertAll([], po, FieldName)
      {
        assert po[i..][1..] == po[i + 1..];
        fields := Upsert(fields, po[i], FieldName);
        i := i + 1;
      }
      var j := 0;
      while j < |gr|
        invariant 0 <= j <= |gr|
        invariant AppendNew(fields, gr[j..], FieldName) == FieldMap(po, gr)
      {
        assert gr[j..][1..] == gr[j + 1..];
        if IndexOf(fields, FieldName, gr[j].name).None? {
          fields := fields + [gr[j]];
        }
        j := j + 1;
      }
    }

    /** The two `forEach` loops over the settings lists. */
    static method MergeSettings(po: seq<ModelDisplaySetting>, gr: seq<ModelDisplaySetting>) returns (merged: seq<ModelDisplaySetting>)
      ensures merged == MergedSettings(po, gr)
    {
      var fromPo := SetEach([], po);
      merged := SetEach(fromPo, gr);
      UpsertAllAppend([], po, gr, SettingName);
    }

    /** One `forEach` loop: `settingsMap.set(s.model_field_name, s)` for each setting in turn. */
    static method SetEach(acc: seq<ModelDisplaySetting>, items: seq<ModelDisplaySetting>) returns (r: seq<ModelDisplaySetting>)
      ensures r == UpsertAll(acc, items, SettingName)
    {
      r := acc;
      var i := 0;
      while i < |items|
        invariant 0 <= i <= |items|
        invariant UpsertAll(r, items[i..], SettingName) == UpsertAll(acc, items, SettingName)
      {
        assert items[i..][1..] == items[i + 1..];
        r := Upsert(r, items[i], SettingName);
        i := i + 1;
      }
    }

    method OpenReceiptModal(order: Record)
      modifies this
      ensures modalOpen && modalOrder == Some(order) && modalError == "" && modalSuccess == ""
      ensures receiptFormData == ReceiptForm(order)
      ensures purchaseOrders == old(purchaseOrders) && filters == old(filters) && displaySettings == old(displaySettings)
    {
      modalOpen := true;
      modalOrder := Some(order);
      modalError := "";
      modalSuccess := "";
      receiptFormData := ReceiptForm(order);
    }

    method CloseReceiptModal()
      modifies this
      ensures !modalOpen && modalOrder.None? && modalError == "" && modalSuccess == ""
      ensures receiptFormData == old(receiptFormData) && purchaseOrders == old(purchaseOrders) && filters == old(filters)
    {
      modalOpen := false;
      modalOrder := None;
      modalError := "";
      modalSuccess := "";
    }

    method HandleReceiptFormChange(name: string, value: string)
      modifies this
      ensures receiptFormData == old(receiptFormData)[name := Str(value)]
      ensures modalOrder == old(modalOrder) && modalError == old(modalError) && modalSuccess == old(modalSuccess)
    {
      receiptFormData := receiptFormData[name := Str(value)];
    }

    /**
     * Submit: the messages are cleared; a quantity that is not a positive
     * number is refused; building the body throws, and shows the
     * communication error, when no order is selected or location or
     * warehouse is not text.
     */
    method HandleReceiptSubmit() returns (request: Option<MobileGoodsReceipt.ReceiptRequest>)
      modifies this
      ensures modalSuccess == ""
      ensures AcceptedQuantity(old(receiptFormData)).None? ==> request.None? && modalError == NotPositiveText
      ensures request.Some? <==>
        AcceptedQuantity(old(receiptFormData)).Some? && old(modalOrder).Some?
        && "location" in old(receiptFormData) && old(receiptFormData)["location"].Str?
        && "warehouse" in old(receiptFormData) && old(receiptFormData)["warehouse"].Str?
      ensures request.Some? ==>
        modalError == ""
        && request.value == MobileGoodsReceipt.ReceiptRequest(
             Lookup(old(modalOrder).value, "id"),
             AcceptedQuantity(old(receiptFormData)).value,
             Strip(old(receiptFormData)["location"].s),
             Strip(old(receiptFormData)["warehouse"].s))
      ensures request.None? && AcceptedQuantity(old(receiptFormData)).Some? ==> modalError == MobileGoodsReceipt.CommunicationError
      ensures modalOrder == old(modalOrder) && receiptFormData == old(receiptFormData) && modalOpen == old(modalOpen)
      ensures purchaseOrders == old(purchaseOrders) && filters == old(filters)
    {
      modalError := "";
      modalSuccess := "";
      var qty := MobileGoodsReceipt.ParseFormValue(receiptFormData, "received_quantity");
      if qty.None? || qty.value <= 0 {
        modalError := NotPositiveText;
        return None;
      }
      if modalOrder.None?
        || "location" !in receiptFormData || !receiptFormData["location"].Str?
        || "warehouse" !in receiptFormData || !receiptFormData["warehouse"].Str?
      {
        modalError := MobileGoodsReceipt.CommunicationError;
        return None;
      }
      request := Some(MobileGoodsReceipt.ReceiptRequest(
        Lookup(modalOrder.value, "id"), qty.value,
        Strip(receiptFormData["location"].s), Strip(receiptFormData["warehouse"].s)));
    }

    /** The answer to the receipt request. */
    method FinishReceipt(outcome: MobileGoodsReceipt.ReceiptOutcome)
      modifies this
      ensures outcome.ReceiptNetworkError? ==> modalError == MobileGoodsReceipt.CommunicationError && modalSuccess == old(modalSuccess)
      ensures outcome.ReceiptAnswered? && outcome.ok ==>
        modalSuccess == "発注 " + outcome.orderNumber + " の入庫処理が正常に完了しました。" && modalError == old(modalError)
      ensures outcome.ReceiptAnswered? && !outcome.ok ==>
        modalError == OptOrElse(outcome.error, ReceiptFailed) && modalSuccess == old(modalSuccess)
      ensures modalOrder == old(modalOrder) && receiptFormData == old(receiptFormData) && modalOpen == old(modalOpen)
      ensures purchaseOrders == old(purchaseOrders) && filters == old(filters)
    {
      match outcome {
        case ReceiptNetworkError =>
          modalError := MobileGoodsReceipt.CommunicationError;
        case ReceiptAnswered(ok, orderNumber, err) =>
          if ok {
            modalSuccess := "発注 " + orderNumber + " の入庫処理が正常に完了しました。";
          } else {
            modalError := OptOrElse(err, ReceiptFailed);
          }
      }
    }
  }
}
