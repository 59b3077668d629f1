/**
 * The data-entry page (frontend/src/pages/DataImport.tsx): a register and a
 * list modal for each master and business data type, the delete
 * confirmation, and the CSV upload that starts an import task and polls its
 * status until the import task ends.
 */
module DataImportPage {
  import opened Common
  import opened Json
  import BaseModels

  // ---------------------------------------------------------------------
  // Data types and their forms
  // ---------------------------------------------------------------------

  const ItemType := "item"
  const SupplierType := "supplier"
  const WarehouseType := "warehouse"
  const PurchaseEntryType := "inventory-purchase-entry"
  const PlanEntryType := "production-plan-entry"
  const PartsUsedType := "parts-used-entry"

  /** The cards of the page: three masters, then three kinds of business data. */
  const MasterCards := [ItemType, SupplierType, WarehouseType]
  const BusinessCards := [PurchaseEntryType, PlanEntryType, PartsUsedType]

  /** A type some card offers (the keys of `DATA_CONFIG`). */
  predicate KnownType(t: string)
  {
    t in MasterCards || t in BusinessCards
  }

  datatype SelectOption = SelectOption(value: string, caption: string)

  /** How a field is edited: a text box, a select over its options, or an input of another HTML type. */
  datatype Input = PlainText | Select(options: seq<SelectOption>) | Typed(inputType: string)

  datatype FormField = FormField(name: string, caption: string, input: Input)

  const ItemTypeOptions := [SelectOption("product", "製品"), SelectOption("material", "材料")]
  const ProvisionOptions := [SelectOption("paid", "有償支給"), SelectOption("free", "無償支給"), SelectOption("none", "支給なし")]

  const ItemFields := [
    FormField("code", "コード", PlainText), FormField("name", "品番名", PlainText),
    FormField("item_type", "品目タイプ", Select(ItemTypeOptions)), FormField("unit", "単位", PlainText),
    FormField("default_warehouse", "デフォルト倉庫", PlainText), FormField("default_location", "デフォルト棚番", PlainText),
    FormField("provision_type", "支給種別", Select(ProvisionOptions)), FormField("description", "説明", PlainText)]
  const SupplierFields := [
    FormField("supplier_number", "サプライヤー番号", PlainText), FormField("name", "サプライヤー名", PlainText),
    FormField("contact_person", "担当者名", PlainText), FormField("phone", "電話番号", PlainText),
    FormField("email", "メールアドレス", Typed("email")), FormField("address", "住所", PlainText)]
  const WarehouseFields := [
    FormField("warehouse_number", "倉庫番号", PlainText), FormField("name", "倉庫名", PlainText),
    FormField("location", "所在地", PlainText)]
  const PurchaseEntryFields := [
    FormField("order_number", "発注番号", PlainText), FormField("shipment_number", "便番号", PlainText),
    FormField("supplier", "仕入れ先", PlainText), FormField("item", "発注対象", PlainText),
    FormField("part_number", "品番", PlainText), FormField("product_name", "品名", PlainText),
    FormField("quantity", "数量", Typed("number")), FormField("expected_arrival", "入荷予定日", Typed("date"))]
  const PlanEntryFields := [
    FormField("plan_name", "計画名", PlainText), FormField("product_code", "製品コード", PlainText),
    FormField("production_plan", "参照生産計画", PlainText), FormField("planned_quantity", "計画数量", Typed("number")),
    FormField("planned_start_datetime", "計画開始日時", Typed("datetime-local")),
    FormField("planned_end_datetime", "計画終了日時", Typed("datetime-local")), FormField("remarks", "備考", PlainText)]
  const PartsUsedFields := [
    FormField("production_plan", "生産計画", PlainText), FormField("part_code", "部品コード", PlainText),
    FormField("warehouse", "倉庫", PlainText), FormField("quantity_used", "使用数量", Typed("number")),
    FormField("used_datetime", "使用日時", Typed("datetime-local"))]

  /** `getFormFields`: the form of a type, and no field at all for a type the table does not know. */
  function FormFields(t: string): (fs: seq<FormField>)
    ensures KnownType(t) <==> fs != []
  {
    if t == ItemType then ItemFields
    else if t == SupplierType then SupplierFields
    else if t == WarehouseType then WarehouseFields
    else if t == PurchaseEntryType then PurchaseEntryFields
    else if t == PlanEntryType then PlanEntryFields
    else if t == PartsUsedType then PartsUsedFields
    else []
  }

  function FieldNames(fs: seq<FormField>): (names: seq<string>)
    ensures |names| == |fs| && forall i :: 0 <= i < |fs| ==> names[i] == fs[i].name
  {
    seq(|fs|, i requires 0 <= i < |fs| => fs[i].name)
  }

  // ---------------------------------------------------------------------
  // The list tables
  // ---------------------------------------------------------------------

  const OperationsHeader := "操作"
  const StatusColumn := "status"
  const IdKey := "id"

  datatype TableConfig = TableConfig(headers: seq<string>, rowKeys: seq<string>, idKey: string)

  /** `getTableConfig`: the column headers, the row keys they show, and the key that identifies a row. */
  function TableConfigFor(t: string): (c: TableConfig)
    ensures c.idKey == IdKey
  {
    if t == ItemType then
      TableConfig(["コード", "品番名", "品目タイプ", "単位", "デフォルト倉庫", "デフォルト棚番", "支給種別", "説明", OperationsHeader],
        ["code", "name", "item_type", "unit", "default_warehouse", "default_location", "provision_type", "description"], IdKey)
    else if t == SupplierType then
      TableConfig(["サプライヤー番号", "サプライヤー名", "担当者名", "電話番号", "メールアドレス", "住所", OperationsHeader],
        ["supplier_number", "name", "contact_person", "phone", "email", "address"], IdKey)
    else if t == WarehouseType then
      TableConfig(["倉庫番号", "倉庫名", "所在地", OperationsHeader], ["warehouse_number", "name", "location"], IdKey)
    else if t == PurchaseEntryType then
      TableConfig(["発注番号", "便番号", "仕入れ先", "発注対象", "品番", "品名", "数量", "入荷予定日", "ステータス", OperationsHeader],
        ["order_number", "shipment_number", "supplier", "item", "part_number", "product_name", "quantity", "expected_arrival", StatusColumn], IdKey)
    else if t == PlanEntryType then
      TableConfig(["計画名", "製品コード", "計画数量", "計画開始日時", "計画終了日時", "ステータス", OperationsHeader],
        ["plan_name", "product_code", "planned_quantity", "planned_start_datetime", "planned_end_datetime", StatusColumn], IdKey)
    else if t == PartsUsedType then
      TableConfig(["生産計画", "部品コード", "倉庫", "使用数量", "使用日時", OperationsHeader],
        ["production_plan", "part_code", "warehouse", "quantity_used", "used_datetime"], IdKey)
    else TableConfig([], [], IdKey)
  }

  /**
   * Every known type has one header per row key plus the operations column
   * last; any other type has no header and no row key.
   */
  lemma TableShape(t: string)
    ensures KnownType(t) ==> |TableConfigFor(t).headers| == |TableConfigFor(t).rowKeys| + 1
    ensures KnownType(t) ==> TableConfigFor(t).headers[|TableConfigFor(t).rowKeys|] == OperationsHeader
    ensures !KnownType(t) ==> TableConfigFor(t).headers == [] && TableConfigFor(t).rowKeys == []
  {
    if t in MasterCards {
      assert t == ItemType || t == SupplierType || t == WarehouseType;
    } else if t in BusinessCards {
      assert t == PurchaseEntryType || t == PlanEntryType || t == PartsUsedType;
    }
  }

  /** The master tables and the parts-used table show exactly the fields of their forms, in form order. */
  lemma ColumnsAreFormFields(t: string)
    requires t in MasterCards || t == PartsUsedType
    ensures TableConfigFor(t).rowKeys == FieldNames(FormFields(t))
  {
  }

  /** The purchase-entry table shows the fields of its form and then the read-only status. */
  lemma PurchaseColumnsAddStatus()
    ensures TableConfigFor(PurchaseEntryType).rowKeys == FieldNames(FormFields(PurchaseEntryType)) + [StatusColumn]
  {
  }

  // ---------------------------------------------------------------------
  // Endpoints
  // ---------------------------------------------------------------------

  /** A `DATA_CONFIG` entry; the detail and delete URLs are their base followed by `${id}/`. */
  datatype Endpoint = Endpoint(name: string, listUrl: string, createUrl: string, detailBase: string, deleteBase: string)

  function EndpointFor(t: string): (e: Option<Endpoint>)
    ensures e.Some? <==> KnownType(t)
  {
    if t == ItemType then
      Some(Endpoint("品番マスター", "/api/master/items/", "/api/master/items/", "/api/master/items/", "/api/master/items/"))
    else if t == SupplierType then
      Some(Endpoint("サプライヤーマスター", "/api/master/suppliers/", "/api/master/suppliers/", "/api/master/suppliers/", "/api/master/suppliers/"))
    else if t == WarehouseType then
      Some(Endpoint("倉庫マスター", "/api/master/warehouses/", "/api/master/warehouses/", "/api/master/warehouses/", "/api/master/warehouses/"))
    else if t == PurchaseEntryType then
      Some(Endpoint("入庫予定", "/api/inventory/purchase-orders/", "/api/inventory/purchase-orders/",
        "/api/inventory/purchase-orders/", "/api/inventory/purchase-orders/"))
    else if t == PlanEntryType then
      Some(Endpoint("生産計画", "/api/production/plans/", "/api/production/plans/", "/api/production/plans/", "/api/production/plans/"))
    else if t == PartsUsedType then
      Some(Endpoint("使用部品", "/api/production/parts-used/", "/api/production/parts-used/",
        "/api/production/parts-used/", "/api/production/parts-used/"))
    else None
  }

  /** Every type creates by posting to its list URL, and reads, updates and deletes a record under that same collection. */
  lemma EndpointsShareOneCollection(t: string)
    requires KnownType(t)
    ensures var e := EndpointFor(t).value;
      e.createUrl == e.listUrl && e.detailBase == e.listUrl && e.deleteBase == e.listUrl
  {
  }

  /** `` `${base}${id}/` ``: a record URL under a collection. */
  function RecordUrl(base: string, id: Value): (url: string)
    ensures StartsWith(url, base) && url[|base|..] == ValueText(id) + "/"
  {
    base + ValueText(id) + "/"
  }

  // ---------------------------------------------------------------------
  // Select normalisation of a fetched record
  // ---------------------------------------------------------------------

  /** `options.find(opt => opt.label === s)`. */
  function FindByCaption(options: seq<SelectOption>, s: string): (r: Option<nat>)
    ensures r.Some? ==> r.value < |options| && options[r.value].caption == s
    ensures r.Some? ==> forall j :: 0 <= j < r.value ==> options[j].caption != s
    ensures r.None? ==> forall j :: 0 <= j < |options| ==> options[j].caption != s
  {
    if options == [] then None
    else if options[0].caption == s then Some(0)
    else match FindByCaption(options[1..], s)
      case None => None
      case Some(k) => Some(k + 1)
  }

  /** Whether `options.find(opt => opt.value === s)` finds an option. */
  predicate IsOptionValue(options: seq<SelectOption>, s: string)
  {
    exists j :: 0 <= j < |options| && options[j].value == s
  }

  /**
   * The value a select field keeps after loading: a caption that is no
   * option's value becomes the value of the first option with that caption,
   * an option value is kept, and anything else is cleared to "".
   */
  function NormalizedSelect(options: seq<SelectOption>, v: Value): (r: Value)
    ensures v.Str? && IsOptionValue(options, v.s) ==> r == v
    ensures v.Str? && !IsOptionValue(options, v.s) && FindByCaption(options, v.s).Some? ==>
      r == Str(options[FindByCaption(options, v.s).value].value)
    ensures !(v.Str? && (IsOptionValue(options, v.s) || FindByCaption(options, v.s).Some?)) ==> r == Str("")
  {
    if v.Str? then
      var byCaption := FindByCaption(options, v.s);
      if byCaption.Some? && !IsOptionValue(options, v.s) then Str(options[byCaption.value].value)
      else if byCaption.None? && !IsOptionValue(options, v.s) then Str("")
      else v
    else Str("")
  }

  /** After normalisation a select holds one of its option values or "": the select can always show it. */
  lemma NormalizedFitsSelect(options: seq<SelectOption>, v: Value)
    ensures NormalizedSelect(options, v) == Str("") ||
      (NormalizedSelect(options, v).Str? && IsOptionValue(options, NormalizedSelect(options, v).s))
  {
    var r := NormalizedSelect(options, v);
    if v.Str? && !IsOptionValue(options, v.s) && FindByCaption(options, v.s).Some? {
      var k := FindByCaption(options, v.s).value;
      assert options[k].value == r.s;
    }
  }

  /**
   * Loading a record that was saved from a normalised form changes nothing:
   * a truthy normalised value is kept, and "" is falsy so the loop skips it.
   */
  lemma NormalizedSelectStable(options: seq<SelectOption>, v: Value)
    ensures ValueTruthy(NormalizedSelect(options, v)) ==>
      NormalizedSelect(options, NormalizedSelect(options, v)) == NormalizedSelect(options, v)
  {
    NormalizedFitsSelect(options, v);
  }

  /** One field's step of the `forEach`: only a select whose fetched value is truthy is rewritten. */
  function NormalizeStep(acc: Record, f: FormField, fetched: Record): Record
  {
    if f.input.Select? && f.name in fetched && ValueTruthy(fetched[f.name]) then
      acc[f.name := NormalizedSelect(f.input.options, fetched[f.name])]
    else acc
  }

  /** `processedData` after the fields up to `fs`: each step reads the fetched record and writes the processed one. */
  function Normalized(fs: seq<FormField>, fetched: Record): (r: Record)
    ensures r.Keys == fetched.Keys
  {
    if fs == [] then fetched else NormalizeStep(Normalized(fs[..|fs| - 1], fetched), fs[|fs| - 1], fetched)
  }

  /** A key that no select field names, or whose fetched value is falsy, keeps its fetched value. */
  lemma {:induction false} NormalizedUntouched(fs: seq<FormField>, fetched: Record, k: string)
    requires k in fetched
    requires !ValueTruthy(fetched[k]) || forall i :: 0 <= i < |fs| && fs[i].name == k ==> !fs[i].input.Select?
    ensures Normalized(fs, fetched)[k] == fetched[k]
  {
    if fs != [] {
      var init := fs[..|fs| - 1];
      assert forall i :: 0 <= i < |init| ==> init[i] == fs[i];
      NormalizedUntouched(init, fetched, k);
    }
  }

  /** A truthy `processedData[k]` is normalised by the options of the last select field named k. */
  lemma {:induction false} NormalizedBySelect(fs: seq<FormField>, fetched: Record, k: string, i: nat)
    requires k in fetched && ValueTruthy(fetched[k])
    requires i < |fs| && fs[i].name == k && fs[i].input.Select?
    requires forall j :: i < j < |fs| && fs[j].name == k ==> !fs[j].input.Select?
    ensures Normalized(fs, fetched)[k] == NormalizedSelect(fs[i].input.options, fetched[k])
  {
    if i < |fs| - 1 {
      var init := fs[..|fs| - 1];
      assert forall j :: 0 <= j < |init| ==> init[j] == fs[j];
      NormalizedBySelect(init, fetched, k, i);
    }
  }

  /** The `forEach` over the fields, writing `processedData` from `fetchedData`. */
  method NormalizeSelects(fs: seq<FormField>, fetched: Record) returns (processed: Record)
    ensures processed == Normalized(fs, fetched)
  {
    processed := fetched;
    var i := 0;
    while i < |fs|
      invariant 0 <= i <= |fs|
      invariant processed == Normalized(fs[..i], fetched)
    {
      var f := fs[i];
      if f.input.Select? && f.name in fetched && ValueTruthy(fetched[f.name]) {
        processed := processed[f.name := NormalizedSelect(f.input.options, fetched[f.name])];
      }
      assert fs[..i + 1][..i] == fs[..i];
      i := i + 1;
    }
    assert fs[..i] == fs;
  }

  /** The item form: a provision type fetched as its caption is loaded as its value. */
  lemma ProvisionCaptionLoadsValue(fetched: Record)
    requires "provision_type" in fetched && fetched["provision_type"] == Str("有償支給")
    ensures Normalized(ItemFields, fetched)["provision_type"] == Str("paid")
  {
    assert ItemFields[7].name != "provision_type";
    NormalizedBySelect(ItemFields, fetched, "provision_type", 6);
    assert FindByCaption(ProvisionOptions, "有償支給") == Some(0);
    assert !IsOptionValue(ProvisionOptions, "有償支給") by {
      forall j | 0 <= j < 3 ensures ProvisionOptions[j].value != "有償支給" {
        assert ProvisionOptions[j].value[0] != "有償支給"[0];
      }
    }
  }

  // ---------------------------------------------------------------------
  // Saving and deleting
  // ---------------------------------------------------------------------

  datatype Verb = POST | PUT

  datatype SaveRequest = SaveRequest(verb: Verb, url: string, body: Record)

  /** `handleFormSubmit`: PUT to the record's URL when there is a record id, else POST to the create URL. */
  function SubmitRequest(e: Endpoint, recordId: Value, formData: Record): (r: SaveRequest)
    ensures r.verb == PUT <==> ValueTruthy(recordId)
    ensures r.verb == PUT ==> r.url == RecordUrl(e.detailBase, recordId)
    ensures r.verb == POST ==> r.url == e.createUrl
    ensures r.body == formData
  {
    if ValueTruthy(recordId) then SaveRequest(PUT, RecordUrl(e.detailBase, recordId), formData)
    else SaveRequest(POST, e.createUrl, formData)
  }

  /** An edit of a known type is a PUT to the list URL followed by the id: the record the list showed. */
  lemma EditTargetsListedRecord(t: string, id: Value, formData: Record)
    requires KnownType(t) && ValueTruthy(id)
    ensures SubmitRequest(EndpointFor(t).value, id, formData) ==
      SaveRequest(PUT, EndpointFor(t).value.listUrl + ValueText(id) + "/", formData)
  {
    EndpointsShareOneCollection(t);
  }

  /** `row[idKey]`, with a missing member read as null. */
  function RowGet(row: Record, key: string): (v: Value)
    ensures key in row ==> v == row[key]
    ensures key !in row ==> v.Null?
  {
    if key in row then row[key] else Null
  }

  /** `row[idKey] !== id`. */
  predicate KeptAfterDelete(row: Record, idKey: string, id: Value)
  {
    !(idKey in row && row[idKey] == id)
  }

  /** The rows left after a delete: `rows.filter(row => row[idKey] !== id)`. */
  function RowsAfterDelete(rows: seq<Record>, idKey: string, id: Value): (r: seq<Record>)
    ensures |r| <= |rows|
  {
    Filter(rows, row => KeptAfterDelete(row, idKey, id))
  }

  /** A delete removes exactly the rows carrying that id. */
  lemma DeleteRemovesExactly(rows: seq<Record>, idKey: string, id: Value, row: Record)
    ensures row in RowsAfterDelete(rows, idKey, id) <==> row in rows && KeptAfterDelete(row, idKey, id)
  {
  }

  /** A delete keeps the order of the rest: it acts on each part of the list separately. */
  lemma DeleteKeepsOrder(front: seq<Record>, back: seq<Record>, idKey: string, id: Value)
    ensures RowsAfterDelete(front + back, idKey, id) == RowsAfterDelete(front, idKey, id) + RowsAfterDelete(back, idKey, id)
  {
    FilterAppend(front, back, row => KeptAfterDelete(row, idKey, id));
  }

  /** A list without the id is left as it is, and deleting twice is deleting once. */
  lemma DeleteIdempotent(rows: seq<Record>, idKey: string, id: Value)
    ensures RowsAfterDelete(RowsAfterDelete(rows, idKey, id), idKey, id) == RowsAfterDelete(rows, idKey, id)
  {
    var r := RowsAfterDelete(rows, idKey, id);
    FilterAll(r, row => KeptAfterDelete(row, idKey, id));
  }

  /** `row.name || row.order_number || row.plan_name || `ID: ${id}``: how the confirmation names the row. */
  function DisplayName(row: Record, idKey: string): (name: string)
    ensures "name" in row && ValueTruthy(row["name"]) ==> name == ValueText(row["name"])
    ensures !("name" in row && ValueTruthy(row["name"])) && "order_number" in row && ValueTruthy(row["order_number"]) ==>
      name == ValueText(row["order_number"])
    ensures (!("name" in row && ValueTruthy(row["name"])) && !("order_number" in row && ValueTruthy(row["order_number"]))
      && "plan_name" in row && ValueTruthy(row["plan_name"])) ==> name == ValueText(row["plan_name"])
    ensures !(exists k :: k in row && k in ["name", "order_number", "plan_name"] && ValueTruthy(row[k])) ==>
      name == "ID: " + ValueText(RowGet(row, idKey))
  {
    if "name" in row && ValueTruthy(row["name"]) then ValueText(row["name"])
    else if "order_number" in row && ValueTruthy(row["order_number"]) then ValueText(row["order_number"])
    else if "plan_name" in row && ValueTruthy(row["plan_name"]) then ValueText(row["plan_name"])
    else "ID: " + ValueText(RowGet(row, idKey))
  }

  // ---------------------------------------------------------------------
  // CSV upload and the import task
  // ---------------------------------------------------------------------

  const TemplateUrlPrefix := "/api/base/csv-mappings/csv-template/?data_type="
  const UploadUrlPrefix := "/api/base/csv-mappings/import-csv/?data_type="
  const StatusUrlPrefix := "/api/base/csv-import-status/"
  const CancelUrlPrefix := "/api/base/csv-import-cancel/"

  /** `CSV_DATA_TYPES`: the option values of the two groups of the data-type select. */
  const CsvDataTypes := ["item", "supplier", "warehouse", "purchase_order", "production_plan", "parts_used"]

  /** Every data type the upload offers is one the import task knows. */
  lemma CsvDataTypesAreImportable()
    ensures forall i :: 0 <= i < |CsvDataTypes| ==> CsvDataTypes[i] in BaseModels.DataTypeChoices
  {
  }

  /** `handleCsvDataTypeChange`: a template link for a chosen type, none for the blank choice. */
  function TemplateUrl(dataType: string): (url: string)
    ensures url == "" <==> dataType == ""
    ensures dataType != "" ==> StartsWith(url, TemplateUrlPrefix) && url[|TemplateUrlPrefix|..] == dataType
  {
    if dataType != "" then TemplateUrlPrefix + dataType else ""
  }

  const AttachmentWord := "attachment"
  const FilenameOpening := "filename=\""
  const DefaultTemplateName := "template.csv"

  /** The number of characters other than `"` from position i on. */
  function QuoteFreeRun(s: string, i: nat): (n: nat)
    requires i <= |s|
    ensures i + n <= |s| && (i + n < |s| ==> s[i + n] == '"')
    ensures forall k :: i <= k < i + n ==> s[k] != '"'
    decreases |s| - i
  {
    if i == |s| || s[i] == '"' then 0 else 1 + QuoteFreeRun(s, i + 1)
  }

  /**
   * The group of `/filename="([^"]+)"/.exec(s)` tried from position i on:
   * the leftmost `filename="` followed by at least one character other than
   * `"` and then a closing `"`.
   */
  function FilenameMatch(s: string, i: nat): (r: Option<string>)
    requires i <= |s|
    ensures r.Some? ==> r.value != [] && forall k :: 0 <= k < |r.value| ==> r.value[k] != '"'
    decreases |s| - i
  {
    if i + |FilenameOpening| > |s| then None
    else
      var start := i + |FilenameOpening|;
      var n := QuoteFreeRun(s, start);
      if OccursAt(s, FilenameOpening, i) && n > 0 && start + n < |s| then Some(s[start..start + n])
      else FilenameMatch(s, i + 1)
  }

  /** Positions without an `f` cannot start a match: the search goes on behind them. */
  lemma {:induction false} FilenameMatchSkips(s: string, i: nat, j: nat)
    requires i <= j <= |s|
    requires forall k :: i <= k < j ==> s[k] != 'f'
    ensures FilenameMatch(s, i) == FilenameMatch(s, j)
    decreases j - i
  {
    if i < j {
      if OccursAt(s, FilenameOpening, i) {
        OpeningStartsWithF(s, i);
        assert false;
      }
      FilenameMatchSkips(s, i + 1, j);
    }
  }

  /**
   * The name `handleTemplateDownload` saves under: the quoted filename of an
   * attachment disposition, else "template.csv" (percent escapes are left
   * as they are).
   */
  function DownloadName(disposition: Option<string>): (name: string)
    ensures name != ""
    ensures disposition.Some? && Contains(disposition.value, AttachmentWord) && FilenameMatch(disposition.value, 0).Some? ==>
      name == FilenameMatch(disposition.value, 0).value
    ensures !(disposition.Some? && Contains(disposition.value, AttachmentWord) && FilenameMatch(disposition.value, 0).Some?) ==>
      name == DefaultTemplateName
  {
    if disposition.Some? && Contains(disposition.value, AttachmentWord) && FilenameMatch(disposition.value, 0).Some? then
      FilenameMatch(disposition.value, 0).value
    else DefaultTemplateName
  }

  /** The prefix of the alert shown when the template cannot be downloaded. */
  const TemplateFailure := "テンプレートのダウンロードに失敗しました: "

  /** The disposition the template endpoint sends: `attachment; filename="{data_type}_template.csv"`. */
  function TemplateDisposition(dataType: string): string
  {
    AttachmentWord + "; " + FilenameOpening + dataType + "_template.csv" + "\""
  }

  lemma OpeningStartsWithF(s: string, i: int)
    requires OccursAt(s, FilenameOpening, i)
    ensures s[i] == 'f'
  {
    assert s[i] == s[i..i + |FilenameOpening|][0];
  }

  /** A `filename="` at i followed by a quote-free name and a quote is a match there. */
  lemma FilenameMatchAt(s: string, i: nat, n: nat)
    requires OccursAt(s, FilenameOpening, i) && n > 0
    requires i + |FilenameOpening| + n < |s| && s[i + |FilenameOpening| + n] == '"'
    requires forall k :: i + |FilenameOpening| <= k < i + |FilenameOpening| + n ==> s[k] != '"'
    ensures FilenameMatch(s, i) == Some(s[i + |FilenameOpening|..i + |FilenameOpening| + n])
  {
    QuoteFreeRunOver(s, i + |FilenameOpening|, n);
  }

  /** The pieces of `pre + opening + name + "\""`, located by position. */
  lemma QuotedPieces(pre: string, opening: string, name: string, d: string)
    requires d == pre + opening + name + "\""
    requires forall k :: 0 <= k < |name| ==> name[k] != '"'
    ensures |d| == |pre| + |opening| + |name| + 1
    ensures forall k :: 0 <= k < |pre| ==> d[k] == pre[k]
    ensures OccursAt(d, opening, |pre|)
    ensures forall k :: |pre| + |opening| <= k < |pre| + |opening| + |name| ==> d[k] != '"'
    ensures d[|pre| + |opening|..|pre| + |opening| + |name|] == name
    ensures d[|pre| + |opening| + |name|] == '"'
  {
    var start := |pre| + |opening|;
    assert d[|pre|..start] == opening;
    forall k | start <= k < start + |name| ensures d[k] != '"' {
      assert d[k] == name[k - start];
    }
  }

  /** Behind an `f`-free prefix, the quoted name of `filename="name"` is found. */
  lemma DispositionName(pre: string, name: string)
    requires forall k :: 0 <= k < |pre| ==> pre[k] != 'f'
    requires name != [] && forall k :: 0 <= k < |name| ==> name[k] != '"'
    ensures FilenameMatch(pre + FilenameOpening + name + "\"", 0) == Some(name)
  {
    var d := pre + FilenameOpening + name + "\"";
    QuotedPieces(pre, FilenameOpening, name, d);
    FilenameMatchSkips(d, 0, |pre|);
    FilenameMatchAt(d, |pre|, |name|);
  }

  /** A template for a data type without quotes is saved as `{data_type}_template.csv`. */
  lemma TemplateSavedUnderItsName(dataType: string)
    requires forall k :: 0 <= k < |dataType| ==> dataType[k] != '"'
    ensures DownloadName(Some(TemplateDisposition(dataType))) == dataType + "_template.csv"
  {
    var pre := AttachmentWord + "; ";
    var name := dataType + "_template.csv";
    var d := TemplateDisposition(dataType);
    assert d == pre + FilenameOpening + name + "\"";
    assert forall k :: 0 <= k < |pre| ==> pre[k] != 'f';
    assert forall k :: 0 <= k < |name| ==> name[k] != '"' by {
      assert forall k :: |dataType| <= k < |name| ==> name[k] == "_template.csv"[k - |dataType|];
    }
    DispositionName(pre, name);
    assert OccursAt(d, AttachmentWord, 0) by {
      assert d[..|AttachmentWord|] == AttachmentWord;
    }
  }

  /** A run of `"`-free characters ended by a `"` is measured exactly. */
  lemma {:induction false} QuoteFreeRunOver(s: string, i: nat, n: nat)
    requires i + n < |s| && s[i + n] == '"'
    requires forall k :: i <= k < i + n ==> s[k] != '"'
    ensures QuoteFreeRun(s, i) == n
    decreases n
  {
    if n > 0 {
      QuoteFreeRunOver(s, i + 1, n - 1);
    }
  }

  /** The status text the status endpoint sends for a task row. */
  function StatusText(s: BaseModels.TaskStatus): string
  {
    match s
    case Pending => "PENDING"
    case Started => "STARTED"
    case Success => "SUCCESS"
    case Failure => "FAILURE"
    case Revoked => "REVOKED"
  }

  /** The status the status endpoint sends for an unknown task id (with 404). */
  const MissingTaskStatus := "error"

  /** The statuses that end the polling. */
  predicate Terminal(status: string)
  {
    status == "SUCCESS" || status == "FAILURE" || status == "REVOKED"
  }

  /** The polling ends exactly on a finished, failed or revoked task; an unknown task id never ends it. */
  lemma TerminalStatuses(s: BaseModels.TaskStatus)
    ensures Terminal(StatusText(s)) <==> s in {BaseModels.Success, BaseModels.Failure, BaseModels.Revoked}
    ensures !Terminal(MissingTaskStatus)
  {
  }

  /** `Math.round(progress / total * 100)` when total > 0, else 0 (exact arithmetic, rounding halves up). */
  function Percent(progress: nat, total: nat): (p: int)
    ensures total == 0 ==> p == 0
    ensures total > 0 ==> 2 * total * p <= 200 * progress + total < 2 * total * (p + 1)
  {
    if total > 0 then (200 * progress + total) / (2 * total) else 0
  }

  /** A task whose progress has reached its total shows 100 %. */
  lemma PercentFull(total: nat)
    requires total > 0
    ensures Percent(total, total) == 100
  {
    var d := 2 * total;
    assert 200 * total + total == 100 * d + total;
    DivideExact(100, total, d);
  }

  /** The bar never leaves 0..100 while the progress does not pass the total. */
  lemma PercentBounded(progress: nat, total: nat)
    requires progress <= total
    ensures 0 <= Percent(progress, total) <= 100
  {
    if total > 0 {
      var d := 2 * total;
      var q := (200 * progress + total) / d;
      assert q * d <= 200 * progress + total < 101 * d;
      if q >= 101 {
        MultiplyMonotone(101, q, d);
        assert false;
      }
    }
  }

  /** Multiplying by a non-negative number keeps the order. */
  lemma MultiplyMonotone(a: int, b: int, d: int)
    requires a <= b && 0 <= d
    ensures a * d <= b * d
  {
    assert b * d - a * d == (b - a) * d;
  }

  /** Dividing q·d + r by d gives q when 0 ≤ r < d. */
  lemma DivideExact(q: int, r: int, d: int)
    requires 0 <= r < d
    ensures (q * d + r) / d == q
  {
    var m, n := (q * d + r) / d, (q * d + r) % d;
    assert q * d + r == m * d + n;
    if q < m {
      MultiplyMonotone(q + 1, m, d);
      assert false;
    } else if m < q {
      MultiplyMonotone(m + 1, q, d);
      assert false;
    }
  }

  /** The result dialog: its message, whether it is an error, and the row errors listed under it. */
  datatype CsvResult = CsvResult(message: string, isError: bool, errors: seq<string>)

  const NoCsvResult := CsvResult("", false, [])

  const ImportErrorPrefix := "エラーが発生しました: "
  const UploadErrorPrefix := "アップロード開始エラー: "
  const UploadFailedText := "Upload failed to start"

  /** `作成: ${created || 0}件, 更新: ${updated || 0}件`. */
  function CountsText(created: nat, updated: nat): string
  {
    "作成: " + NatToString(created) + "件, 更新: " + NatToString(updated) + "件"
  }

  /** `${resultData.error}`: "undefined" when the result carries no error. */
  function ResultErrorText(result: Option<BaseModels.TaskResult>): string
  {
    if result.Some? && result.value.ImportError? then result.value.error else "undefined"
  }

  /** The dialog of a task that ended with a given status and result. */
  function FinalResult(s: BaseModels.TaskStatus, result: Option<BaseModels.TaskResult>): (r: CsvResult)
    requires s in {BaseModels.Success, BaseModels.Failure, BaseModels.Revoked}
    ensures r.isError <==> s == BaseModels.Failure
    ensures s == BaseModels.Success && result.Some? && result.value.ImportCounts? ==>
      r.message == CountsText(result.value.created, result.value.updated)
    ensures s != BaseModels.Success ==> r.message == ImportErrorPrefix + ResultErrorText(result)
    ensures result.Some? && result.value.ImportCounts? ==> r.errors == result.value.errors
    ensures !(result.Some? && result.value.ImportCounts?) ==> r.errors == []
  {
    var counts := if result.Some? && result.value.ImportCounts? then result.value else BaseModels.ImportCounts(0, 0, []);
    CsvResult(
      if s == BaseModels.Success then CountsText(counts.created, counts.updated) else ImportErrorPrefix + ResultErrorText(result),
      s == BaseModels.Failure,
      counts.errors)
  }

  /** A revoked task reports an error message in a dialog that is not marked as an error. */
  lemma RevokedShownAsNonError(result: Option<BaseModels.TaskResult>)
    ensures !FinalResult(BaseModels.Revoked, result).isError
    ensures StartsWith(FinalResult(BaseModels.Revoked, result).message, ImportErrorPrefix)
  {
  }

  /** What a status request brings back: the import task row, a 404 for an unknown id, or no usable answer. */
  datatype PollAnswer = TaskFound(task: BaseModels.AsyncTask) | TaskMissing | PollThrown

  /** What the upload request brings back: its status and body, or no usable answer. */
  datatype UploadReply = UploadAnswered(status: int, taskId: Option<string>, message: Option<string>) | UploadThrown(reason: string)

  /** An upload is accepted exactly on a 202 that carries a non-empty task id. */
  predicate UploadAccepted(reply: UploadReply)
  {
    reply.UploadAnswered? && reply.status == 202 && reply.taskId.Some? && reply.taskId.value != ""
  }

  /** The dialog of a refused upload: its message, else the fallback, after the prefix. */
  function UploadFailure(reply: UploadReply): (r: CsvResult)
    requires !UploadAccepted(reply)
    ensures r.isError && r.errors == [] && StartsWith(r.message, UploadErrorPrefix)
  {
    var reason := match reply
      case UploadThrown(m) => m
      case UploadAnswered(_, _, m) => OptOrElse(m, UploadFailedText);
    CsvResult(UploadErrorPrefix + reason, true, [])
  }

  // ---------------------------------------------------------------------
  // Answers of the list and record requests
  // ---------------------------------------------------------------------

  /** The list answer: `results` and `data` as the body has them, a non-OK status, or a thrown error. */
  datatype ListReply = ListOk(results: Option<seq<Record>>, data: Option<seq<Record>>) | ListNotOk | ListThrown(message: string)

  const ListNotOkText := "Network response was not ok"

  /** `result.results || result.data || []`: an array is truthy even when empty. */
  function ListRows(results: Option<seq<Record>>, data: Option<seq<Record>>): (rows: seq<Record>)
    ensures results.Some? ==> rows == results.value
    ensures results.None? && data.Some? ==> rows == data.value
    ensures results.None? && data.None? ==> rows == []
  {
    if results.Some? then results.value else if data.Some? then data.value else []
  }

  /** The record answer: the body's status, data and message, a non-OK status, or a thrown error. */
  datatype RecordReply = RecordOk(status: string, data: Record, message: Option<string>) | RecordNotOk | RecordThrown(reason: string)

  const RecordNotOkText := "Failed to fetch record details."
  const NoDataText := "Could not load data."

  datatype ListData = ListData(headers: seq<string>, rows: seq<Record>, rowKeys: seq<string>, idKey: string)

  /** The row the delete confirmation is about. */
  datatype DeleteTarget = DeleteTarget(id: Value, dataType: string, displayName: string)

  /** The delete answer: OK (with or without a body), or not. */
  datatype DeleteReply = DeleteOk | DeleteRefused | DeleteThrown

  // ---------------------------------------------------------------------
  // The page
  // ---------------------------------------------------------------------

  class Screen {
    var showRegisterModal: bool
    var showListModal: bool
    var showDeleteModal: bool
    var showCsvResultModal: bool
    var modalType: string
    var modalName: string
    var recordId: Value
    var listData: ListData
    var isLoading: bool
    var error: Option<string>
    var formData: Record
    var itemToDelete: Option<DeleteTarget>
    var csvResult: CsvResult
    var taskId: Option<string>
    var taskStatus: Option<string>
    var progress: int
    var csvDataType: string
    var csvFile: Option<string>
    var csvTemplateUrl: string

    /** The polling interval runs exactly while there is a task id. */
    predicate Polling()
      reads this
    {
      taskId.Some?
    }

    constructor ()
      ensures !showRegisterModal && !showListModal && !showDeleteModal && !showCsvResultModal
      ensures modalType == "" && modalName == "" && recordId.Null?
      ensures listData == ListData([], [], [], IdKey) && !isLoading && error.None? && formData == map[]
      ensures itemToDelete.None? && csvResult == NoCsvResult
      ensures taskId.None? && taskStatus.None? && progress == 0
      ensures csvDataType == "" && csvFile.None? && csvTemplateUrl == ""
    {
      showRegisterModal, showListModal, showDeleteModal, showCsvResultModal := false, false, false, false;
      modalType, modalName, recordId := "", "", Null;
      listData, isLoading, error, formData := ListData([], [], [], IdKey), false, None, map[];
      itemToDelete, csvResult := None, NoCsvResult;
      taskId, taskStatus, progress := None, None, 0;
      csvDataType, csvFile, csvTemplateUrl := "", None, "";
    }

    /**
     * `fetchListData`: nothing for a blank type; otherwise the table of the
     * type with the rows of the answer, or with no row and the error.
     */
    method FetchListData(t: string, reply: ListReply) returns (url: Option<string>)
      requires t == "" || KnownType(t)
      modifies this`listData, this`error, this`isLoading
      ensures t == "" ==> url.None? && unchanged(this)
      ensures t != "" ==> url == Some(EndpointFor(t).value.listUrl) && !isLoading
      ensures t != "" ==> listData.headers == TableConfigFor(t).headers && listData.rowKeys == TableConfigFor(t).rowKeys
      ensures t != "" ==> listData.idKey == IdKey
      ensures t != "" && reply.ListOk? ==> listData.rows == ListRows(reply.results, reply.data) && error.None?
      ensures t != "" && reply.ListNotOk? ==> listData.rows == [] && error == Some(ListNotOkText)
      ensures t != "" && reply.ListThrown? ==> listData.rows == [] && error == Some(reply.message)
    {
      if t == "" {
        return None;
      }
      url := Some(EndpointFor(t).value.listUrl);
      var config := TableConfigFor(t);
      match reply {
        case ListOk(results, data) =>
          listData, error := ListData(config.headers, ListRows(results, data), config.rowKeys, config.idKey), None;
        case ListNotOk =>
          listData, error := ListData(config.headers, [], config.rowKeys, config.idKey), Some(ListNotOkText);
        case ListThrown(m) =>
          listData, error := ListData(config.headers, [], config.rowKeys, config.idKey), Some(m);
      }
      isLoading := false;
    }

    /**
     * `handleShowRegisterModal`: the modal opens on an empty form; with a
     * record id the record is fetched and its selects normalised. Without a
     * record id the previous error stays, and the modal shows it instead of
     * the form.
     */
    method ShowRegisterModal(t: string, id: Value, reply: RecordReply) returns (url: Option<string>)
      requires KnownType(t)
      modifies this`modalType, this`modalName, this`recordId, this`formData, this`isLoading, this`error, this`showRegisterModal
      ensures modalType == t && modalName == EndpointFor(t).value.name && recordId == id && showRegisterModal
      ensures !ValueTruthy(id) ==> url.None? && formData == map[] && error == old(error) && isLoading == old(isLoading)
      ensures ValueTruthy(id) ==> url == Some(RecordUrl(EndpointFor(t).value.detailBase, id)) && !isLoading
      ensures ValueTruthy(id) && reply.RecordOk? && reply.status == "success" ==>
        formData == Normalized(FormFields(t), reply.data) && error.None?
      ensures ValueTruthy(id) && reply.RecordOk? && reply.status != "success" ==>
        formData == map[] && error == Some(OptOrElse(reply.message, NoDataText))
      ensures ValueTruthy(id) && reply.RecordNotOk? ==> formData == map[] && error == Some(RecordNotOkText)
      ensures ValueTruthy(id) && reply.RecordThrown? ==> formData == map[] && error == Some(reply.reason)
    {
      var e := EndpointFor(t).value;
      modalType, modalName, recordId := t, e.name, id;
      formData := map[];
      url := None;
      if ValueTruthy(id) {
        url := Some(RecordUrl(e.detailBase, id));
        error := None;
        match reply {
          case RecordOk(status, data, message) =>
            if status == "success" {
              formData := NormalizeSelects(FormFields(t), data);
            } else {
              error := Some(OptOrElse(message, NoDataText));
            }
          case RecordNotOk =>
            error := Some(RecordNotOkText);
          case RecordThrown(m) =>
            error := Some(m);
        }
        isLoading := false;
      }
      showRegisterModal := true;
    }

    /** `handleShowListModal`: the type and its name, with no record id; the list then loads. */
    method ShowListModal(t: string)
      requires KnownType(t)
      modifies this`modalType, this`modalName, this`recordId, this`showListModal
      ensures modalType == t && modalName == EndpointFor(t).value.name && recordId.Null? && showListModal
    {
      modalType, modalName, recordId, showListModal := t, EndpointFor(t).value.name, Null, true;
    }

    /** A form input: `{...prev, [name]: value}`. */
    method HandleFieldChange(name: string, value: string)
      modifies this`formData
      ensures formData == old(formData)[name := Str(value)]
    {
      formData := formData[name := Str(value)];
    }

    /** `handleFormSubmit` up to the request. */
    method HandleFormSubmit() returns (request: SaveRequest)
      requires KnownType(modalType)
      ensures request == SubmitRequest(EndpointFor(modalType).value, recordId, formData)
    {
      request := SubmitRequest(EndpointFor(modalType).value, recordId, formData);
    }

    /** The save answer: an OK closes the modal and reloads an open list; a refusal changes nothing but the alert. */
    method FinishFormSubmit(ok: bool) returns (reload: Option<string>)
      modifies this`showRegisterModal
      ensures ok ==> !showRegisterModal && (reload.Some? <==> showListModal) && (reload.Some? ==> reload.value == modalType)
      ensures !ok ==> showRegisterModal == old(showRegisterModal) && reload.None?
    {
      reload := None;
      if ok {
        showRegisterModal := false;
        if showListModal {
          reload := Some(modalType);
        }
      }
    }

    /** The delete button of a list row: the row's id, the list's type and the row's display name. */
    method AskDelete(row: Record)
      modifies this`itemToDelete, this`showDeleteModal
      ensures itemToDelete == Some(DeleteTarget(RowGet(row, listData.idKey), modalType, DisplayName(row, listData.idKey)))
      ensures showDeleteModal
    {
      itemToDelete := Some(DeleteTarget(RowGet(row, listData.idKey), modalType, DisplayName(row, listData.idKey)));
      showDeleteModal := true;
    }

    /** `handleDeleteConfirm`: an OK answer closes the dialog and drops the rows with that id from the list. */
    method HandleDeleteConfirm(reply: DeleteReply) returns (url: Option<string>)
      requires itemToDelete.Some? ==> KnownType(itemToDelete.value.dataType)
      modifies this`showDeleteModal, this`listData
      ensures itemToDelete.None? ==> url.None? && unchanged(this)
      ensures itemToDelete.Some? ==> url == Some(RecordUrl(EndpointFor(itemToDelete.value.dataType).value.deleteBase, itemToDelete.value.id))
      ensures itemToDelete.Some? && reply.DeleteOk? ==>
        !showDeleteModal &&
        listData == old(listData).(rows := RowsAfterDelete(old(listData).rows, old(listData).idKey, itemToDelete.value.id))
      ensures itemToDelete.None? || !reply.DeleteOk? ==> showDeleteModal == old(showDeleteModal) && listData == old(listData)
    {
      if itemToDelete.None? {
        return None;
      }
      var target := itemToDelete.value;
      url := Some(RecordUrl(EndpointFor(target.dataType).value.deleteBase, target.id));
      if reply.DeleteOk? {
        showDeleteModal := false;
        listData := listData.(rows := RowsAfterDelete(listData.rows, listData.idKey, target.id));
      }
    }

    /**
     * `handleTemplateDownload`: nothing without a template link; otherwise the
     * link is fetched, a non-OK answer alerts the failure with its status and
     * saves nothing, and an OK answer is saved under `DownloadName`.
     */
    method HandleTemplateDownload(ok: bool, statusCode: int, statusText: string, disposition: Option<string>)
      returns (fetched: Option<string>, download: Option<(string, string)>, failure: Option<string>)
      ensures csvTemplateUrl == "" ==> fetched.None? && download.None? && failure.None?
      ensures csvTemplateUrl != "" ==> fetched == Some(csvTemplateUrl)
      ensures csvTemplateUrl != "" && !ok ==> (download.None?
        && failure == Some(TemplateFailure + "サーバーエラー: " + IntToString(statusCode) + " " + statusText))
      ensures csvTemplateUrl != "" && ok ==> download == Some((csvTemplateUrl, DownloadName(disposition))) && failure.None?
    {
      if csvTemplateUrl == "" {
        return None, None, None;
      }
      fetched := Some(csvTemplateUrl);
      if !ok {
        return fetched, None, Some(TemplateFailure + "サーバーエラー: " + IntToString(statusCode) + " " + statusText);
      }
      return fetched, Some((csvTemplateUrl, DownloadName(disposition))), None;
    }

    /** `handleCsvDataTypeChange`. */
    method HandleCsvDataTypeChange(value: string)
      modifies this`csvDataType, this`csvTemplateUrl
      ensures csvDataType == value && csvTemplateUrl == TemplateUrl(value)
    {
      csvDataType := value;
      csvTemplateUrl := TemplateUrl(value);
    }

    /** The drop zone: the first accepted file (a drop with none clears the choice). */
    method DropFiles(names: seq<string>)
      modifies this`csvFile
      ensures names != [] ==> csvFile == Some(names[0])
      ensures names == [] ==> csvFile.None?
    {
      csvFile := if names != [] then Some(names[0]) else None;
    }

    /**
     * `handleCsvUpload` up to the request: without a file and a type nothing
     * happens; otherwise the page waits with no task and 0 %.
     */
    method StartCsvUpload() returns (url: Option<string>)
      modifies this`isLoading, this`taskId, this`taskStatus, this`progress
      ensures csvFile.None? || csvDataType == "" ==> url.None? && unchanged(this)
      ensures csvFile.Some? && csvDataType != "" ==>
        url == Some(UploadUrlPrefix + csvDataType) && isLoading && taskId.None? && taskStatus.None? && progress == 0
    {
      if csvFile.None? || csvDataType == "" {
        return None;
      }
      url := Some(UploadUrlPrefix + csvDataType);
      isLoading, taskId, taskStatus, progress := true, None, None, 0;
    }

    /** The upload answer: a 202 with a task id starts the polling; anything else opens the error dialog. */
    method FinishCsvUpload(reply: UploadReply)
      modifies this`taskId, this`taskStatus, this`csvResult, this`showCsvResultModal, this`isLoading, this`csvFile
      ensures csvFile.None?
      ensures UploadAccepted(reply) ==> taskId == reply.taskId && taskStatus == Some("PENDING") && Polling()
      ensures UploadAccepted(reply) ==> csvResult == old(csvResult) && showCsvResultModal == old(showCsvResultModal)
      ensures !UploadAccepted(reply) ==> csvResult == UploadFailure(reply) && showCsvResultModal && !isLoading
      ensures !UploadAccepted(reply) ==> taskId == old(taskId) && taskStatus == old(taskStatus)
    {
      if UploadAccepted(reply) {
        taskId, taskStatus := reply.taskId, Some("PENDING");
      } else {
        csvResult, showCsvResultModal, isLoading := UploadFailure(reply), true, false;
      }
      csvFile := None;
    }

    /**
     * `pollTaskStatus`: the status and the percentage are shown; a finished,
     * failed or revoked task stops the polling and opens the result dialog.
     * An answer that cannot be read stops the polling without a dialog.
     */
    method PollTaskStatus(answer: PollAnswer)
      modifies this`taskStatus, this`progress, this`taskId, this`isLoading, this`csvResult, this`showCsvResultModal
      ensures answer.TaskFound? ==> taskStatus == Some(StatusText(answer.task.status))
      ensures answer.TaskFound? ==> progress == Percent(answer.task.progress, answer.task.total)
      ensures answer.TaskFound? && Terminal(StatusText(answer.task.status)) ==>
        !Polling() && !isLoading && showCsvResultModal && csvResult == FinalResult(answer.task.status, answer.task.result)
      ensures answer.TaskFound? && !Terminal(StatusText(answer.task.status)) ==>
        taskId == old(taskId) && csvResult == old(csvResult) && showCsvResultModal == old(showCsvResultModal)
      ensures answer.TaskMissing? ==> taskStatus == Some(MissingTaskStatus) && progress == 0 && taskId == old(taskId)
      ensures answer.TaskMissing? ==> csvResult == old(csvResult) && showCsvResultModal == old(showCsvResultModal)
      ensures answer.PollThrown? ==> !Polling() && !isLoading && taskStatus == old(taskStatus) && progress == old(progress)
      ensures answer.PollThrown? ==> csvResult == old(csvResult) && showCsvResultModal == old(showCsvResultModal)
    {
      match answer {
        case TaskFound(task) =>
          taskStatus, progress := Some(StatusText(task.status)), Percent(task.progress, task.total);
          if Terminal(StatusText(task.status)) {
            TerminalStatuses(task.status);
            taskId, isLoading := None, false;
            csvResult, showCsvResultModal := FinalResult(task.status, task.result), true;
          }
        case TaskMissing =>
          taskStatus, progress := Some(MissingTaskStatus), 0;
        case PollThrown =>
          taskId, isLoading := None, false;
      }
    }

    /** `handleCancelUpload`: a cancel request for the running task; the polling sees the outcome. */
    method CancelUpload() returns (url: Option<string>)
      ensures taskId.None? ==> url.None?
      ensures taskId.Some? ==> url == Some(CancelUrlPrefix + taskId.value + "/")
    {
      url := if taskId.Some? then Some(CancelUrlPrefix + taskId.value + "/") else None;
    }

    /** The URL the polling interval requests every two seconds. */
    function StatusUrl(): (url: Option<string>)
      reads this
      ensures url.Some? <==> Polling()
    {
      if taskId.Some? then Some(StatusUrlPrefix + taskId.value + "/") else None
    }
  }
}
