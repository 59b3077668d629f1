/**
 * The stock inquiry page (frontend/src/pages/InventoryInquiry.tsx): the
 * stock list filtered by `<key>_query` parameters plus the always-sent
 * `hide_zero_stock_query` flag, its columns from the inventory display
 * settings, part names looked up from the item master, and the modify and
 * move modals.
 */
module InventoryInquiryPage {
  import opened Common
  import opened Json
  import opened BaseModels
  import opened ListOps
  import opened SettingsColumns
  import opened PageLinks
  import InventoryModels
  import InventoryViews

  // ---------------------------------------------------------------------
  // Filters and the list request
  // ---------------------------------------------------------------------

  /** One member of the `filters` object: a text criterion, or the `hideZeroStock` checkbox. */
  datatype Entry = Entry(key: string, value: Value)

  function EntryKey(e: Entry): string { e.key }

  const HideZeroKey := "hideZeroStock"
  const HideZeroQueryKey := "hide_zero_stock_query"
  const QuerySuffix := "_query"

  /** The filters start with the checkbox ticked and no text criterion. */
  const InitialFilters: seq<Entry> := [Entry(HideZeroKey, Bool(true))]

  /** The shape every change keeps: distinct keys, the checkbox first. */
  predicate ValidFilters(filters: seq<Entry>)
  {
    |filters| >= 1 && filters[0].key == HideZeroKey && DistinctBy(filters, EntryKey)
  }

  /** `[name]: type === 'checkbox' ? checked : value`: a new key goes last, a present key keeps its place. */
  function SetFilter(filters: seq<Entry>, name: string, value: Value): (r: seq<Entry>)
  {
    Upsert(filters, Entry(name, value), EntryKey)
  }

  /** A change keeps the filters valid, sets the value, and leaves the other keys' values alone. */
  lemma SetFilterMeaning(filters: seq<Entry>, name: string, value: Value)
    requires ValidFilters(filters)
    ensures var r := SetFilter(filters, name, value);
      ValidFilters(r) && Entry(name, value) in r
      && (forall i :: 0 <= i < |filters| && filters[i].key != name ==> r[i] == filters[i])
      && (forall e :: e in r ==> e in filters || e == Entry(name, value))
  {
    UpsertMeaning(filters, Entry(name, value), EntryKey);
  }

  /** `String(filters.hideZeroStock)`, or "undefined" when the member is missing. */
  function HideZeroText(filters: seq<Entry>): (t: string)
    ensures ValidFilters(filters) ==> t == ValueText(filters[0].value)
  {
    match IndexOf(filters, EntryKey, HideZeroKey)
    case Some(i) => ValueText(filters[i].value)
    case None => "undefined"
  }

  /** `key !== 'hideZeroStock' && value`. */
  function Sent(e: Entry): bool { e.key != HideZeroKey && ValueTruthy(e.value) }

  function QueryParam(e: Entry): Param { Param(e.key + QuerySuffix, ValueText(e.value)) }

  /** The list query: `<key>_query` for each truthy criterion in the filters' order, then `hide_zero_stock_query`. */
  function FilterQuery(filters: seq<Entry>): seq<Param>
  {
    MapSeq(Filter(filters, Sent), QueryParam) + [Param(HideZeroQueryKey, HideZeroText(filters))]
  }

  /** The query ends with the checkbox; before it come exactly the truthy criteria, each as `<key>_query`. */
  lemma FilterQueryMeaning(filters: seq<Entry>)
    ensures var q := FilterQuery(filters);
      |q| >= 1 && q[|q| - 1] == Param(HideZeroQueryKey, HideZeroText(filters))
      && (forall k :: 0 <= k < |q| - 1 ==> exists e :: e in filters && Sent(e) && q[k] == QueryParam(e))
      && (forall e :: e in filters && Sent(e) ==> QueryParam(e) in q)
  {
    var kept := Filter(filters, Sent);
    var body := MapSeq(kept, QueryParam);
    var q := FilterQuery(filters);
    assert q == body + [Param(HideZeroQueryKey, HideZeroText(filters))];
    forall k | 0 <= k < |q| - 1
      ensures exists e :: e in filters && Sent(e) && q[k] == QueryParam(e)
    {
      assert q[k] == body[k] == QueryParam(kept[k]);
      assert kept[k] in filters && Sent(kept[k]);
    }
    forall e | e in kept ensures QueryParam(e) in q {
      var i :| 0 <= i < |kept| && kept[i] == e;
      assert q[i] == body[i] == QueryParam(e);
    }
  }

  /** The first request sends only the ticked checkbox. */
  lemma InitialQuery()
    ensures FilterQuery(InitialFilters) == [Param(HideZeroQueryKey, "true")]
  {
    FilterNone(InitialFilters, Sent);
  }

  lemma SuffixInjective(a: string, b: string)
    ensures a + QuerySuffix == b + QuerySuffix <==> a == b
  {
    if a + QuerySuffix == b + QuerySuffix {
      assert a == (a + QuerySuffix)[..|a|];
      assert b == (b + QuerySuffix)[..|b|];
    }
  }

  /** The server reads the last `hide_zero_stock_query`, which is always the checkbox's. */
  lemma ServerReadsCheckbox(filters: seq<Entry>)
    requires ValidFilters(filters) && filters[0].value.Bool?
    ensures InventoryViews.InventoryQueryOf(FilterQuery(filters)).hideZero == filters[0].value.b
  {
    var q := FilterQuery(filters);
    FilterQueryMeaning(filters);
    var body := q[..|q| - 1];
    assert q == body + [q[|q| - 1]];
    ValuesOfAppend(body, [q[|q| - 1]], HideZeroQueryKey);
    assert ValuesOf([q[|q| - 1]], HideZeroQueryKey) == [HideZeroText(filters)];
    LowerAsciiAt("false");
  }

  /** A truthy criterion reaches the server as the one value under `<key>_query`. */
  lemma ServerReadsCriterion(filters: seq<Entry>, j: nat)
    requires ValidFilters(filters) && j < |filters| && Sent(filters[j])
    requires filters[j].key + QuerySuffix != HideZeroQueryKey
    ensures QueryGet(FilterQuery(filters), filters[j].key + QuerySuffix) == Some(ValueText(filters[j].value))
  {
    var q := FilterQuery(filters);
    FilterQueryMeaning(filters);
    var key := filters[j].key + QuerySuffix;
    var v := ValueText(filters[j].value);
    forall i | 0 <= i < |q| && q[i].key == key ensures q[i].value == v {
      if i < |q| - 1 {
        var e :| e in filters && Sent(e) && q[i] == QueryParam(e);
        var m :| 0 <= m < |filters| && filters[m] == e;
        SuffixInjective(e.key, filters[j].key);
        assert EntryKey(filters[m]) == EntryKey(filters[j]);
        assert m == j;
      }
    }
    assert QueryParam(filters[j]) in q;
    ValuesOfUniform(q, key, v);
  }

  /** A part-number criterion is what the server filters the part number by. */
  lemma ServerFiltersPartNumber(filters: seq<Entry>, j: nat, v: string)
    requires ValidFilters(filters) && j < |filters| && filters[j] == Entry("part_number", Str(v)) && v != ""
    ensures InventoryViews.InventoryQueryOf(FilterQuery(filters)).part == Some(v)
  {
    assert "part_number" + QuerySuffix == "part_number_query";
    ServerReadsCriterion(filters, j);
  }

  // ---------------------------------------------------------------------
  // Part names
  // ---------------------------------------------------------------------

  /** `item.part_number`, `None` when the member is missing. */
  function PartNumberOf(row: Record): Option<Value> { Lookup(row, "part_number") }

  function HasPartNumber(row: Record): bool { PartNumberOf(row).Some? && ValueTruthy(PartNumberOf(row).value) }

  function PartNumberValue(row: Record): Value { if PartNumberOf(row).Some? then PartNumberOf(row).value else Null }

  function Same(v: Value): Value { v }

  /** `[...new Set(rows.map(r => r.part_number).filter(Boolean))]`. */
  function PartNumbers(rows: seq<Record>): (ps: seq<Value>)
  {
    AppendNew([], MapSeq(Filter(rows, HasPartNumber), PartNumberValue), Same)
  }

  /** A row with a truthy part number. */
  predicate Numbered(rows: seq<Record>, v: Value)
  {
    exists row :: row in rows && HasPartNumber(row) && PartNumberValue(row) == v
  }

  /** The part numbers looked up are the truthy ones of the rows, each once. */
  lemma PartNumbersMeaning(rows: seq<Record>)
    ensures DistinctBy(PartNumbers(rows), Same)
    ensures forall v :: v in PartNumbers(rows) <==> Numbered(rows, v)
  {
    var vals := MapSeq(Filter(rows, HasPartNumber), PartNumberValue);
    AppendNewMeaning([], vals, Same);
    forall v | v in PartNumbers(rows) ensures Numbered(rows, v) {
      PartNumberFromRow(rows, v);
    }
    forall v | Numbered(rows, v) ensures v in PartNumbers(rows) {
      PartNumberOfRow(rows, v);
    }
  }

  lemma PartNumberFromRow(rows: seq<Record>, v: Value)
    requires v in PartNumbers(rows)
    ensures Numbered(rows, v)
  {
    var kept := Filter(rows, HasPartNumber);
    var vals := MapSeq(kept, PartNumberValue);
    AppendNewMeaning([], vals, Same);
    var i :| 0 <= i < |vals| && vals[i] == v;
    assert kept[i] in rows && HasPartNumber(kept[i]);
  }

  lemma PartNumberOfRow(rows: seq<Record>, v: Value)
    requires Numbered(rows, v)
    ensures v in PartNumbers(rows)
  {
    var kept := Filter(rows, HasPartNumber);
    var vals := MapSeq(kept, PartNumberValue);
    var ps := PartNumbers(rows);
    var row :| row in rows && HasPartNumber(row) && PartNumberValue(row) == v;
    var r :| 0 <= r < |rows| && rows[r] == row;
    var i :| 0 <= i < |kept| && kept[i] == row;
    assert Same(vals[i]) == v;
    AppendNewMeaning([], vals, Same);
    var q := IndexOf(ps, Same, v);
    assert ps[q.value] == v;
  }

  /** The item-master lookup: `code__in=` and the part numbers joined by commas. */
  function ItemsLookup(partNumbers: seq<Value>): Param
  {
    Param("code__in", Join(MapSeq(partNumbers, ValueText), ","))
  }

  /** An item of the master answer: its `code` and `name`, `None` when missing. */
  datatype PartItem = PartItem(code: Option<Value>, name: Option<Value>)

  function ItemCode(i: PartItem): Option<Value> { i.code }

  /** `new Map(items.map(item => [item.code, item.name]))`. */
  function PartNames(items: seq<PartItem>): seq<PartItem>
  {
    UpsertAll([], items, ItemCode)
  }

  /** `partNameMap.get(row.part_number) || ''`. */
  function PartNameFor(names: seq<PartItem>, row: Record): (v: Value)
    ensures v == Str("") || ValueTruthy(v)
    ensures (forall k :: 0 <= k < |names| ==> names[k].code != PartNumberOf(row)) ==> v == Str("")
  {
    match IndexOf(names, ItemCode, PartNumberOf(row))
    case Some(i) =>
      if names[i].name.Some? && ValueTruthy(names[i].name.value) then names[i].name.value else Str("")
    case None => Str("")
  }

  /** A row's part name is that of the last item with its part number, or blank. */
  lemma PartNameOfLastItem(items: seq<PartItem>, row: Record, k: nat)
    requires k < |items| && items[k].code == PartNumberOf(row)
    requires forall j :: k < j < |items| ==> items[j].code != items[k].code
    ensures PartNameFor(PartNames(items), row) ==
      (if items[k].name.Some? && ValueTruthy(items[k].name.value) then items[k].name.value else Str(""))
  {
    var m := PartNames(items);
    UpsertAllMeaning([], items, ItemCode);
    var p :| 0 <= p < |m| && m[p] == items[k];
    IndexOfDistinct(m, ItemCode, p);
  }

  /** A row whose part number no item has gets the blank name. */
  lemma PartNameOfUnknown(items: seq<PartItem>, row: Record)
    requires forall j :: 0 <= j < |items| ==> items[j].code != PartNumberOf(row)
    ensures PartNameFor(PartNames(items), row) == Str("")
  {
    var m := PartNames(items);
    UpsertAllMeaning([], items, ItemCode);
    forall i | 0 <= i < |m| ensures m[i].code != PartNumberOf(row) {
      assert m[i] in m;
    }
  }

  /** Every row with its `part_name` set; nothing else changes. */
  function WithPartNames(rows: seq<Record>, names: seq<PartItem>): (r: seq<Record>)
    ensures |r| == |rows|
    ensures forall k :: 0 <= k < |rows| ==>
      r[k].Keys == rows[k].Keys + {"part_name"} && r[k]["part_name"] == PartNameFor(names, rows[k])
      && forall key :: key in rows[k] && key != "part_name" ==> r[k][key] == rows[k][key]
  {
    seq(|rows|, k requires 0 <= k < |rows| => rows[k]["part_name" := PartNameFor(names, rows[k])])
  }

  /** The answer of the item-master request. */
  datatype ItemsAnswer = ItemsOk(items: seq<PartItem>) | ItemsNotOk | ItemsRejected

  /**
   * The rows after the part-name step: looked up only when there are rows
   * and truthy part numbers; a failed answer leaves the rows as they are; a
   * rejected request is `None` (it ends in the page's error).
   */
  function RowsWithNames(rows: seq<Record>, answer: ItemsAnswer): Option<seq<Record>>
  {
    if rows == [] || PartNumbers(rows) == [] then Some(rows)
    else match answer
      case ItemsOk(items) => Some(WithPartNames(rows, PartNames(items)))
      case ItemsNotOk => Some(rows)
      case ItemsRejected => None
  }

  /** Rows are left as they are unless they are looked up and answered; only a rejected lookup loses them. */
  lemma RowsWithNamesMeaning(rows: seq<Record>, answer: ItemsAnswer)
    ensures PartNumbers(rows) == [] ==> RowsWithNames(rows, answer) == Some(rows)
    ensures answer.ItemsNotOk? ==> RowsWithNames(rows, answer) == Some(rows)
    ensures RowsWithNames(rows, answer).None? <==> PartNumbers(rows) != [] && answer.ItemsRejected?
  {
    if rows == [] {
      assert PartNumbers(rows) == [] by {
        FilterNone(rows, HasPartNumber);
      }
    }
  }

  // ---------------------------------------------------------------------
  // Modals
  // ---------------------------------------------------------------------

  /** The modify form: the row's warehouse, its location with `-` shown blank, and its quantity. */
  function ModifyForm(item: Record): (form: Record)
    ensures form.Keys == {"warehouse", "location", "quantity"}
    ensures form["warehouse"] == DataGet(item, "warehouse", Null) && form["quantity"] == DataGet(item, "quantity", Null)
    ensures DataGet(item, "location", Null) == Str("-") ==> form["location"] == Str("")
    ensures DataGet(item, "location", Null) != Str("-") ==> form["location"] == DataGet(item, "location", Null)
  {
    var location := DataGet(item, "location", Null);
    map["warehouse" := DataGet(item, "warehouse", Null),
        "location" := (if location == Str("-") then Str("") else location),
        "quantity" := DataGet(item, "quantity", Null)]
  }

  /** The move form: the whole quantity of the row, and blank targets. */
  function MoveForm(item: Record): (form: Record)
    ensures form.Keys == {"quantity_to_move", "target_warehouse", "target_location"}
    ensures form["quantity_to_move"] == DataGet(item, "quantity", Null)
    ensures form["target_warehouse"] == Str("") && form["target_location"] == Str("")
  {
    map["quantity_to_move" := DataGet(item, "quantity", Null),
        "target_warehouse" := Str(""),
        "target_location" := Str("")]
  }

  /** The PATCH body of the modify form, and the row it goes to. */
  datatype ModifyRequest = ModifyRequest(id: Option<Value>, quantity: Value, location: string)

  /** The move body; a quantity that does not parse is sent as `null`. */
  datatype MoveRequest = MoveRequest(id: Option<Value>, quantity: Option<int>, targetWarehouse: string, targetLocation: string)

  /** The move request as the server reads it. */
  function MoveBody(req: MoveRequest): (body: Record)
    ensures body.Keys == {"quantity_to_move", "target_warehouse", "target_location"}
    ensures body["quantity_to_move"] == (if req.quantity.Some? then Num(req.quantity.value) else Null)
    ensures body["target_warehouse"] == Str(req.targetWarehouse) && body["target_location"] == Str(req.targetLocation)
  {
    map["quantity_to_move" := (if req.quantity.Some? then Num(req.quantity.value) else Null),
        "target_warehouse" := Str(req.targetWarehouse),
        "target_location" := Str(req.targetLocation)]
  }

  /** A quantity the client lets through as NaN is refused by the server as invalid data. */
  lemma UnparsedQuantityRefusedByServer(src: InventoryModels.Inventory, req: MoveRequest)
    requires req.quantity.None?
    ensures InventoryViews.PlanMove(src, MoveBody(req)) == InventoryViews.MoveRejected(InventoryViews.InvalidRequestData)
  {
  }

  /** A client-accepted move with a positive quantity within the row and a non-blank target is accepted by the server. */
  lemma ClientMoveAcceptedByServer(src: InventoryModels.Inventory, req: MoveRequest)
    requires req.quantity.Some? && 0 < req.quantity.value <= src.quantity && req.targetWarehouse != ""
    ensures InventoryViews.PlanMove(src, MoveBody(req)).MoveAccepted?
    ensures InventoryViews.PlanMove(src, MoveBody(req)).quantity == req.quantity.value
  {
  }

  const UpdatedText := "在庫を更新しました。"
  const UpdateFailed := "在庫の更新に失敗しました。"
  const UpdateCommError := "在庫更新中に通信エラーが発生しました。"
  const MovedText := "在庫を移動しました。"
  const MoveFailed := "在庫の移動に失敗しました。"
  const MoveCommError := "在庫移動中に通信エラーが発生しました。"
  const MoveQuantityMin := "移動数量は1以上である必要があります。"
  const TargetRequired := "移動先倉庫は必須です。"

  /** Stands for the message of the `TypeError` thrown by `.trim()` on a value that is not text. */
  const ClientTypeError := "TypeError"

  /** The answer to the modify request: the status, and the `message`, `error` and `detail` members. */
  datatype ModifyOutcome =
    | ModifyAnswered(ok: bool, message: Option<string>, error: Option<string>, detail: Option<string>)
    | ModifyNetworkError(errorMessage: string)

  /** The answer to the move request: `success`, `message` and `error`. */
  datatype MoveOutcome = MoveAnswered(success: bool, message: Option<string>, error: Option<string>) | MoveNetworkError

  /** The modal states: open, the row, and the two messages. */
  datatype ModalState = ModalState(isOpen: bool, item: Option<Record>, error: string, success: string)

  const ClosedModal := ModalState(false, None, "", "")

  /** The five parallel answers of a list fetch; `None` when that request was not ok. */
  datatype Answers = Answers(
    settings: Option<seq<ModelDisplaySetting>>,
    fields: Option<seq<FieldLabel>>,
    data: Option<PageData>,
    items: ItemsAnswer)

  datatype Fetched = Answered(answers: Answers) | FetchRejected

  const FetchError := "在庫データの取得中にエラーが発生しました。"

  /** The columns: none unless both the settings and the fields requests succeeded. */
  function AnsweredColumns(a: Answers): seq<Column>
  {
    if a.settings.Some? && a.fields.Some? then CombinedSettings(a.fields.value, a.settings.value) else []
  }

  /** The rows shown after an answered fetch, `None` when the list or the lookup failed. */
  function AnsweredRows(a: Answers): Option<seq<Record>>
  {
    if a.data.None? then None else RowsWithNames(a.data.value.results, a.items)
  }

  /** The item-master lookup an answered fetch sends: only for a non-empty page with truthy part numbers. */
  function AnsweredLookup(a: Answers): Option<Param>
  {
    if a.data.Some? && a.data.value.results != [] && PartNumbers(a.data.value.results) != [] then
      Some(ItemsLookup(PartNumbers(a.data.value.results)))
    else None
  }

  class Screen {
    var inventory: seq<Record>
    var pagination: Pagination
    var isLoading: bool
    var error: Option<string>
    var displaySettings: seq<Column>
    var searchFields: seq<Column>
    var filters: seq<Entry>
    var modifyModal: ModalState
    var moveModal: ModalState
    var modifyFormData: Record
    var moveFormData: Record

    constructor ()
      ensures inventory == [] && pagination == InitialPagination && isLoading && error.None?
      ensures displaySettings == [] && searchFields == [] && filters == InitialFilters
      ensures modifyModal == ClosedModal && moveModal == ClosedModal
      ensures modifyFormData == map["warehouse" := Str(""), "location" := Str(""), "quantity" := Num(0)]
      ensures moveFormData == map["quantity_to_move" := Num(0), "target_warehouse" := Str(""), "target_location" := Str("")]
    {
      inventory := [];
      pagination := InitialPagination;
      isLoading := true;
      error := None;
      displaySettings := [];
      searchFields := [];
      filters := InitialFilters;
      modifyModal := ClosedModal;
      moveModal := ClosedModal;
      modifyFormData := map["warehouse" := Str(""), "location" := Str(""), "quantity" := Num(0)];
      moveFormData := map["quantity_to_move" := Num(0), "target_warehouse" := Str(""), "target_location" := Str("")];
    }

    method HandleFilterChange(name: string, value: Value)
      modifies this
      ensures filters == SetFilter(old(filters), name, value)
      ensures unchanged(this`inventory, this`displaySettings, this`searchFields, this`modifyModal, this`moveModal)
    {
      filters := SetFilter(filters, name, value);
    }

    /**
     * `fetchInventory`: the list request, then the answers. The columns are
     * rebuilt or emptied; the rows and pagination are replaced when the list
     * and the part-name lookup succeeded, and the error is set otherwise.
     * The lookup is sent only for a non-empty page with truthy part numbers.
     */
    method FetchInventory(pageUrl: Option<string>, answer: Fetched) returns (request: ListRequest, lookup: Option<Param>)
      modifies this
      ensures request == ListRequestFor(pageUrl, FilterQuery(filters))
      ensures !isLoading
      ensures answer.FetchRejected? ==>
        lookup.None? && error == Some(FetchError)
        && unchanged(this`displaySettings, this`searchFields, this`inventory, this`pagination)
      ensures answer.Answered? ==>
        displaySettings == VisibleColumns(AnsweredColumns(answer.answers))
        && searchFields == SearchableFields(AnsweredColumns(answer.answers))
      ensures answer.Answered? ==> lookup == AnsweredLookup(answer.answers)
      ensures answer.Answered? && AnsweredRows(answer.answers).None? ==>
        error == Some(FetchError) && unchanged(this`inventory, this`pagination)
      ensures answer.Answered? && AnsweredRows(answer.answers).Some? ==>
        error.None? && inventory == AnsweredRows(answer.answers).value
        && pagination == PaginationOf(answer.answers.data.value)
      ensures unchanged(this`filters, this`modifyModal, this`moveModal, this`modifyFormData, this`moveFormData)
    {
      lookup := None;
      if answer.FetchRejected? {
        error := Some(FetchError);
      } else {
        lookup := ApplyAnswers(answer.answers);
      }
      isLoading := false;
      request := ListRequestFor(pageUrl, FilterQuery(filters));
    }

    /** The state an answered fetch leaves: new columns, then the rows or the error. */
    method ApplyAnswers(a: Answers) returns (lookup: Option<Param>)
      modifies this
      ensures displaySettings == VisibleColumns(AnsweredColumns(a))
        && searchFields == SearchableFields(AnsweredColumns(a))
      ensures lookup == AnsweredLookup(a)
      ensures AnsweredRows(a).None? ==>
        error == Some(FetchError) && unchanged(this`inventory, this`pagination)
      ensures AnsweredRows(a).Some? ==>
        error.None? && inventory == AnsweredRows(a).value && pagination == PaginationOf(a.data.value)
      ensures unchanged(this`isLoading, this`filters, this`modifyModal, this`moveModal, this`modifyFormData, this`moveFormData)
    {
      var display, search := BuildColumns(a);
      var rows;
      rows, lookup := BuildRows(a);
      var page := if a.data.Some? then PaginationOf(a.data.value) else pagination;
      Show(display, search, rows, page);
    }

    /** Puts new columns on screen, then the rows and pagination, or the error when there are no rows. */
    method Show(display: seq<Column>, search: seq<Column>, rows: Option<seq<Record>>, page: Pagination)
      modifies this
      ensures displaySettings == display && searchFields == search
      ensures rows.None? ==> error == Some(FetchError) && unchanged(this`inventory, this`pagination)
      ensures rows.Some? ==> error.None? && inventory == rows.value && pagination == page
      ensures unchanged(this`isLoading, this`filters, this`modifyModal, this`moveModal, this`modifyFormData, this`moveFormData)
    {
      displaySettings, searchFields := display, search;
      if rows.None? {
        error := Some(FetchError);
      } else {
        error := None;
        inventory := rows.value;
        pagination := page;
      }
    }

    /** The columns and search fields of an answered fetch. */
    static method BuildColumns(a: Answers) returns (display: seq<Column>, search: seq<Column>)
      ensures display == VisibleColumns(AnsweredColumns(a)) && search == SearchableFields(AnsweredColumns(a))
    {
      var cs := AnsweredColumns(a);
      display := VisibleColumns(cs);
      search := SearchableFields(cs);
    }

    /** The rows of an answered fetch and the item-master lookup it sends. */
    static method BuildRows(a: Answers) returns (rows: Option<seq<Record>>, lookup: Option<Param>)
      ensures rows == AnsweredRows(a) && lookup == AnsweredLookup(a)
    {
      rows, lookup := None, None;
      if a.data.Some? {
        var results := a.data.value.results;
        if results != [] && PartNumbers(results) != [] {
          lookup := Some(ItemsLookup(PartNumbers(results)));
          if a.items.ItemsOk? {
            var named := AddPartNames(results, PartNames(a.items.items));
            rows := Some(named);
          } else {
            rows := RowsWithNames(results, a.items);
          }
        } else {
          rows := Some(results);
        }
      }
    }

    /** `inventoryResults.forEach(inv => { inv.part_name = ... })`. */
    static method AddPartNames(rows: seq<Record>, names: seq<PartItem>) returns (out: seq<Record>)
      ensures out == WithPartNames(rows, names)
    {
      out := rows;
      var i := 0;
      while i < |rows|
        invariant 0 <= i <= |rows| && |out| == |rows|
        invariant forall k :: 0 <= k < i ==> out[k] == rows[k]["part_name" := PartNameFor(names, rows[k])]
        invariant forall k :: i <= k < |rows| ==> out[k] == rows[k]
      {
        out := out[i := rows[i]["part_name" := PartNameFor(names, rows[i])]];
        i := i + 1;
      }
    }

    method OpenModifyModal(item: Record)
      modifies this
      ensures modifyModal == ModalState(true, Some(item), "", "") && modifyFormData == ModifyForm(item)
      ensures unchanged(this`moveModal, this`moveFormData, this`inventory, this`filters)
    {
      modifyModal := ModalState(true, Some(item), "", "");
      modifyFormData := ModifyForm(item);
    }

    method CloseModifyModal()
      modifies this
      ensures modifyModal == ClosedModal
      ensures unchanged(this`modifyFormData, this`moveModal, this`moveFormData, this`inventory, this`filters)
    {
      modifyModal := ClosedModal;
    }

    method OpenMoveModal(item: Record)
      modifies this
      ensures moveModal == ModalState(true, Some(item), "", "") && moveFormData == MoveForm(item)
      ensures unchanged(this`modifyModal, this`modifyFormData, this`inventory, this`filters)
    {
      moveModal := ModalState(true, Some(item), "", "");
      moveFormData := MoveForm(item);
    }

    method CloseMoveModal()
      modifies this
      ensures moveModal == ClosedModal
      ensures unchanged(this`moveFormData, this`modifyModal, this`modifyFormData, this`inventory, this`filters)
    {
      moveModal := ClosedModal;
    }

    method HandleModifyFormChange(name: string, value: string)
      modifies this
      ensures modifyFormData == old(modifyFormData)[name := Str(value)]
      ensures unchanged(this`modifyModal, this`moveModal, this`moveFormData)
    {
      modifyFormData := modifyFormData[name := Str(value)];
    }

    method HandleMoveFormChange(name: string, value: string)
      modifies this
      ensures moveFormData == old(moveFormData)[name := Str(value)]
      ensures unchanged(this`modifyModal, this`moveModal, this`modifyFormData)
    {
      moveFormData := moveFormData[name := Str(value)];
    }

    /**
     * Modify submit: the messages are cleared; with a selected row and a
     * text location the PATCH carries the quantity as it is and the trimmed
     * location; otherwise building it throws.
     */
    method HandleModifySubmit() returns (request: Option<ModifyRequest>)
      modifies this
      ensures request.Some? <==>
        old(modifyModal).item.Some? && "location" in old(modifyFormData) && old(modifyFormData)["location"].Str?
      ensures request.Some? ==>
        modifyModal == old(modifyModal).(error := "", success := "")
        && request.value == ModifyRequest(Lookup(old(modifyModal).item.value, "id"),
                                          DataGet(old(modifyFormData), "quantity", Null),
                                          Strip(old(modifyFormData)["location"].s))
      ensures request.None? ==> modifyModal == old(modifyModal).(error := ClientTypeError, success := "")
      ensures unchanged(this`modifyFormData, this`moveModal, this`moveFormData, this`inventory, this`filters)
    {
      modifyModal := modifyModal.(error := "", success := "");
      if modifyModal.item.None? || "location" !in modifyFormData || !modifyFormData["location"].Str? {
        modifyModal := modifyModal.(error := ClientTypeError);
        return None;
      }
      request := Some(ModifyRequest(Lookup(modifyModal.item.value, "id"),
                                    DataGet(modifyFormData, "quantity", Null),
                                    Strip(modifyFormData["location"].s)));
    }

    method FinishModify(outcome: ModifyOutcome)
      modifies this
      ensures outcome.ModifyAnswered? && outcome.ok ==>
        modifyModal == old(modifyModal).(success := OptOrElse(outcome.message, UpdatedText))
      ensures outcome.ModifyAnswered? && !outcome.ok ==>
        modifyModal == old(modifyModal).(error := OptOrElse(outcome.error, OptOrElse(outcome.detail, UpdateFailed)))
      ensures outcome.ModifyNetworkError? ==>
        modifyModal == old(modifyModal).(error := OrElse(outcome.errorMessage, UpdateCommError))
      ensures unchanged(this`modifyFormData, this`moveModal, this`moveFormData, this`inventory, this`filters)
    {
      match outcome {
        case ModifyAnswered(ok, message, err, detail) =>
          if ok {
            modifyModal := modifyModal.(success := OptOrElse(message, UpdatedText));
          } else {
            modifyModal := modifyModal.(error := OptOrElse(err, OptOrElse(detail, UpdateFailed)));
          }
        case ModifyNetworkError(m) =>
          modifyModal := modifyModal.(error := OrElse(m, UpdateCommError));
      }
    }

    /**
     * Move submit: a quantity that parses to 0 or less is refused, then a
     * blank target warehouse; a quantity that does not parse passes. The
     * body carries the parsed quantity and the trimmed targets; building it
     * throws when no row is selected or a target is not text.
     */
    method HandleMoveSubmit() returns (request: Option<MoveRequest>)
      modifies this
      ensures var q := ParseValue(DataGet(old(moveFormData), "quantity_to_move", Null));
        (q.Some? && q.value <= 0 ==> request.None? && moveModal == old(moveModal).(error := MoveQuantityMin, success := ""))
        && (!(q.Some? && q.value <= 0) && !ValueTruthy(DataGet(old(moveFormData), "target_warehouse", Null)) ==>
              request.None? && moveModal == old(moveModal).(error := TargetRequired, success := ""))
      ensures request.Some? <==>
        var q := ParseValue(DataGet(old(moveFormData), "quantity_to_move", Null));
        !(q.Some? && q.value <= 0) && ValueTruthy(DataGet(old(moveFormData), "target_warehouse", Null))
        && old(moveModal).item.Some?
        && old(moveFormData)["target_warehouse"].Str?
        && "target_location" in old(moveFormData) && old(moveFormData)["target_location"].Str?
      ensures request.Some? ==>
        moveModal == old(moveModal).(error := "", success := "")
        && request.value == MoveRequest(Lookup(old(moveModal).item.value, "id"),
                                        ParseValue(DataGet(old(moveFormData), "quantity_to_move", Null)),
                                        Strip(old(moveFormData)["target_warehouse"].s),
                                        Strip(old(moveFormData)["target_location"].s))
      ensures unchanged(this`moveFormData, this`modifyModal, this`modifyFormData, this`inventory, this`filters)
    {
      moveModal := moveModal.(error := "", success := "");
      var q := ParseValue(DataGet(moveFormData, "quantity_to_move", Null));
      if q.Some? && q.value <= 0 {
        moveModal := moveModal.(error := MoveQuantityMin);
        return None;
      }
      if !ValueTruthy(DataGet(moveFormData, "target_warehouse", Null)) {
        moveModal := moveModal.(error := TargetRequired);
        return None;
      }
      if moveModal.item.None? || !moveFormData["target_warehouse"].Str?
        || "target_location" !in moveFormData || !moveFormData["target_location"].Str?
      {
        moveModal := moveModal.(error := MoveCommError);
        return None;
      }
      request := Some(MoveRequest(Lookup(moveModal.item.value, "id"), q,
                                  Strip(moveFormData["target_warehouse"].s),
                                  Strip(moveFormData["target_location"].s)));
    }

    method FinishMove(outcome: MoveOutcome)
      modifies this
      ensures outcome.MoveAnswered? && outcome.success ==>
        moveModal == old(moveModal).(success := OptOrElse(outcome.message, MovedText))
      ensures outcome.MoveAnswered? && !outcome.success ==>
        moveModal == old(moveModal).(error := OptOrElse(outcome.error, MoveFailed))
      ensures outcome.MoveNetworkError? ==> moveModal == old(moveModal).(error := MoveCommError)
      ensures unchanged(this`moveFormData, this`modifyModal, this`modifyFormData, this`inventory, this`filters)
    {
      match outcome {
        case MoveAnswered(ok, message, err) =>
          if ok {
            moveModal := moveModal.(success := OptOrElse(message, MovedText));
          } else {
            moveModal := moveModal.(error := OptOrElse(err, MoveFailed));
          }
        case MoveNetworkError =>
          moveModal := moveModal.(error := MoveCommError);
      }
    }
  }

  /** Opening the move modal on a row with a positive integer quantity pre-fills a move the client lets through once a target is typed. */
  lemma DefaultMovePasses(item: Record, target: string)
    requires "quantity" in item && item["quantity"].Num? && item["quantity"].n > 0 && target != ""
    ensures var form := MoveForm(item)["target_warehouse" := Str(target)];
      ParseValue(DataGet(form, "quantity_to_move", Null)) == Some(item["quantity"].n)
      && ValueTruthy(DataGet(form, "target_warehouse", Null))
  {
  }
}
