/**
 * The page display settings screen (frontend/src/pages/PageDisplaySettings.tsx):
 * for one page of the application, the fields of the data types that page
 * reads, merged with their saved display settings; the two order columns
 * are rearranged by drag and drop and every source data type is saved with
 * its own rows.
 */
module PageDisplaySettingsPage {
  import opened Common
  import opened Json
  import opened BaseModels
  import opened ListOps
  import BaseApi

  /** The pages the screen offers, the first one selected at start. */
  const PageTypes: seq<string> := ["goods_receipt", "sales_order", "inventory", "stock_movement"]

  /** `DATA_TYPE_MAP[page]`: the data types read, the data types listed as saved, the source labels. */
  datatype PageConfig = PageConfig(fetch: seq<string>, save: seq<string>, labels: map<string, string>)

  const GoodsReceiptConfig := PageConfig(
    ["purchase_order", "goods_receipt"], ["goods_receipt"],
    map["purchase_order" := "入庫予定", "goods_receipt" := "入庫実績"])

  /**
   * The goods-receipt page reads purchase orders and receipts; every other
   * configured page reads its own data type only, without labels.
   */
  function ConfigOf(page: string): (c: Option<PageConfig>)
    ensures c.Some? <==> page in PageTypes
    ensures page == "goods_receipt" ==> c == Some(GoodsReceiptConfig)
    ensures c.Some? && page != "goods_receipt" ==> c.value == PageConfig([page], [page], map[])
    ensures c.Some? ==> |c.value.fetch| >= 1
  {
    if page == "goods_receipt" then Some(GoodsReceiptConfig)
    else if page in PageTypes then Some(PageConfig([page], [page], map[]))
    else None
  }

  const UnknownTypePrefix := "設定されていないデータタイプです: "
  const CustomLabel := "カスタム項目"
  const SavedDefault := "設定を保存しました。"

  /** A saved display setting as the settings endpoint returns it, with its computed verbose name. */
  datatype SettingView = SettingView(setting: ModelDisplaySetting, verboseName: string)

  /** `{...s, source_data_type: type}`: a setting with the data type it was fetched for. */
  datatype Tagged = Tagged(view: SettingView, source: string)

  /** An entry of the merged field map; `label` is "" when the entry has none. */
  datatype Field = Field(name: string, verboseName: string, helpText: string, source: string, sourceLabel: string)

  /** The two answers fetched for one data type. */
  datatype TypeData = TypeData(settings: seq<SettingView>, fields: seq<ModelField>)

  function FieldName(f: Field): string { f.name }
  function TaggedName(t: Tagged): string { t.view.setting.modelFieldName }

  /** The source label of a data type: only when the page reads more than one type. */
  function LabelFor(config: PageConfig, dataType: string): (l: string)
    ensures |config.fetch| <= 1 ==> l == ""
    ensures |config.fetch| > 1 && dataType in config.labels ==> l == config.labels[dataType]
  {
    if |config.fetch| > 1 && dataType in config.labels then config.labels[dataType] else ""
  }

  function ModelCandidate(f: ModelField, source: string, sourceLabel: string): Field
  {
    Field(f.name, f.verboseName, f.helpText, source, sourceLabel)
  }

  /** The fields of one data type offered to the map, in order, without `id`. */
  function TypeCandidates(fields: seq<ModelField>, source: string, sourceLabel: string): (r: seq<Field>)
    ensures forall c :: c in r ==> c.name != "id" && c.source == source && c.sourceLabel == sourceLabel
    ensures forall f :: f in fields && f.name != "id" ==> ModelCandidate(f, source, sourceLabel) in r
  {
    if fields == [] then []
    else
      var rest := TypeCandidates(fields[1..], source, sourceLabel);
      assert forall f :: f in fields ==> f == fields[0] || f in fields[1..];
      (if fields[0].name != "id" then [ModelCandidate(fields[0], source, sourceLabel)] else []) + rest
  }

  /** The model fields of the fetched types from the `i`-th on, type by type. */
  function ModelCandidates(config: PageConfig, data: seq<TypeData>, i: nat): (r: seq<Field>)
    requires |data| == |config.fetch| && i <= |data|
    ensures forall c :: c in r ==>
      c.name != "id" && c.source in config.fetch[i..] && c.sourceLabel == LabelFor(config, c.source)
    ensures forall j, f :: i <= j < |data| && f in data[j].fields && f.name != "id" ==>
      ModelCandidate(f, config.fetch[j], LabelFor(config, config.fetch[j])) in r
    decreases |data| - i
  {
    if i == |data| then []
    else
      var t := config.fetch[i];
      var rest := ModelCandidates(config, data, i + 1);
      assert forall x :: x in config.fetch[i + 1..] ==> x in config.fetch[i..];
      TypeCandidates(data[i].fields, t, LabelFor(config, t)) + rest
  }

  /** `allSettings`: the settings of the fetched types from the `i`-th on, tagged with their type. */
  function AllSettings(config: PageConfig, data: seq<TypeData>, i: nat): (r: seq<Tagged>)
    requires |data| == |config.fetch| && i <= |data|
    ensures forall t :: t in r ==> t.source in config.fetch[i..]
    decreases |data| - i
  {
    if i == |data| then []
    else
      var rest := AllSettings(config, data, i + 1);
      assert forall x :: x in config.fetch[i + 1..] ==> x in config.fetch[i..];
      TagAll(data[i].settings, config.fetch[i]) + rest
  }

  /** `settings.map(s => ({...s, source_data_type: type}))`. */
  function TagAll(settings: seq<SettingView>, source: string): (r: seq<Tagged>)
    ensures |r| == |settings|
    ensures forall k :: 0 <= k < |settings| ==> r[k] == Tagged(settings[k], source)
  {
    MapSeq(settings, (v: SettingView) => Tagged(v, source))
  }

  /** A field restored from a setting the model fields do not list. */
  function SettingCandidate(t: Tagged): (f: Field)
    ensures f.name == TaggedName(t) && f.sourceLabel == CustomLabel && f.source == t.source && f.helpText == ""
    ensures f.verboseName == OrElse(t.view.verboseName, TaggedName(t))
  {
    Field(TaggedName(t), OrElse(t.view.verboseName, TaggedName(t)), "", t.source, CustomLabel)
  }

  const PartNameField := Field("part_name", "品名", "品番マスターから自動的に取得される品名です。", "inventory", "品番マスター")

  function ExtraCandidates(page: string): seq<Field>
  {
    if page == "inventory" then [PartNameField] else []
  }

  /** Everything offered to the field map, in the order `fetchAllData` offers it. */
  function Candidates(page: string, config: PageConfig, data: seq<TypeData>): seq<Field>
    requires |data| == |config.fetch|
  {
    ModelCandidates(config, data, 0) + MapSeq(AllSettings(config, data, 0), SettingCandidate) + ExtraCandidates(page)
  }

  /** `combinedFieldsMap`: every candidate whose name is not yet in the map, in insertion order. */
  function Combined(page: string, config: PageConfig, data: seq<TypeData>): seq<Field>
    requires |data| == |config.fetch|
  {
    AppendNew([], Candidates(page, config, data), FieldName)
  }

  /** The merged fields have no name twice, and every candidate's name is among them. */
  lemma CombinedDistinct(page: string, config: PageConfig, data: seq<TypeData>)
    requires |data| == |config.fetch|
    ensures DistinctBy(Combined(page, config, data), FieldName)
    ensures forall k :: 0 <= k < |Candidates(page, config, data)| ==>
      IndexOf(Combined(page, config, data), FieldName, Candidates(page, config, data)[k].name).Some?
    ensures forall x :: x in Combined(page, config, data) ==> x in Candidates(page, config, data)
  {
    AppendNewMeaning([], Candidates(page, config, data), FieldName);
  }

  /** Every model field except `id` of every fetched type is merged. */
  lemma CombinedHasModelFields(page: string, config: PageConfig, data: seq<TypeData>, j: nat, f: ModelField)
    requires |data| == |config.fetch|
    requires j < |data| && f in data[j].fields && f.name != "id"
    ensures IndexOf(Combined(page, config, data), FieldName, f.name).Some?
  {
    var items := Candidates(page, config, data);
    var mc := ModelCandidates(config, data, 0);
    var x := ModelCandidate(f, config.fetch[j], LabelFor(config, config.fetch[j]));
    assert x in mc;
    var k :| 0 <= k < |mc| && mc[k] == x;
    assert items[k] == x;
    AppendNewHasItem([], items, FieldName, k);
  }

  /** Every saved setting's field is merged, restored from the setting when no model lists it. */
  lemma CombinedHasSettings(page: string, config: PageConfig, data: seq<TypeData>, k: nat)
    requires |data| == |config.fetch|
    requires k < |AllSettings(config, data, 0)|
    ensures IndexOf(Combined(page, config, data), FieldName, TaggedName(AllSettings(config, data, 0)[k])).Some?
  {
    var items := Candidates(page, config, data);
    var mc := ModelCandidates(config, data, 0);
    var tagged := AllSettings(config, data, 0);
    var sc := MapSeq(tagged, SettingCandidate);
    MiddleAt(mc, sc, ExtraCandidates(page), k);
    assert FieldName(items[|mc| + k]) == TaggedName(tagged[k]) by {
      assert items[|mc| + k] == sc[k] == SettingCandidate(tagged[k]);
    }
    AppendNewHasItem([], items, FieldName, |mc| + k);
  }

  /** An element of the middle part of a three-part concatenation, by position. */
  lemma MiddleAt<T>(a: seq<T>, b: seq<T>, c: seq<T>, k: nat)
    requires k < |b|
    ensures |a + b + c| > |a| + k && (a + b + c)[|a| + k] == b[k]
  {
  }

  /** The inventory page always has a `part_name` row. */
  lemma InventoryHasPartName(config: PageConfig, data: seq<TypeData>)
    requires |data| == |config.fetch|
    ensures IndexOf(Combined("inventory", config, data), FieldName, "part_name").Some?
  {
    var items := Candidates("inventory", config, data);
    var mc := ModelCandidates(config, data, 0);
    var sc := MapSeq(AllSettings(config, data, 0), SettingCandidate);
    assert items[|mc| + |sc|] == PartNameField;
    AppendNewHasItem([], items, FieldName, |mc| + |sc|);
  }

  /**
   * A merged field is a model field other than `id` of a fetched type,
   * carrying that type's label (empty unless the page reads several types),
   * or one restored from a setting, or the inventory page's `part_name`.
   */
  lemma CombinedShape(page: string, config: PageConfig, data: seq<TypeData>, x: Field)
    requires |data| == |config.fetch|
    requires x in Combined(page, config, data)
    ensures (x.name != "id" && x.source in config.fetch && x.sourceLabel == LabelFor(config, x.source))
            || x.sourceLabel == CustomLabel
            || (page == "inventory" && x == PartNameField)
  {
    var mc := ModelCandidates(config, data, 0);
    var sc := MapSeq(AllSettings(config, data, 0), SettingCandidate);
    CombinedDistinct(page, config, data);
    assert x in mc + sc + ExtraCandidates(page);
    if x in sc {
      var k :| 0 <= k < |sc| && sc[k] == x;
    }
  }

  /** On a page that reads several types, the field kept for a name is that of the first type listing it. */
  lemma FirstTypeWins(page: string, config: PageConfig, data: seq<TypeData>, k: nat)
    requires |data| == |config.fetch|
    requires k < |Candidates(page, config, data)|
    ensures var c := Combined(page, config, data);
      var items := Candidates(page, config, data);
      var name := items[k].name;
      IndexOf(c, FieldName, name).Some? && IndexOf(items, FieldName, name).Some?
      && c[IndexOf(c, FieldName, name).value] == items[IndexOf(items, FieldName, name).value]
  {
    AppendNewPicksFirst(Candidates(page, config, data), FieldName, k);
  }

  /** One row of the two tables. */
  datatype Row = Row(
    modelFieldName: string,
    verboseName: string,
    helpText: string,
    source: string,
    displayName: string,
    displayOrder: int,
    searchOrder: int,
    isListDisplay: bool,
    isSearchField: bool,
    isListFilter: bool)

  function RowName(r: Row): string { r.modelFieldName }

  /** `allSettings.find(s => s.model_field_name === name)`. */
  function SettingFor(settings: seq<Tagged>, name: string): (r: Option<Tagged>)
    ensures r.None? <==> forall k :: 0 <= k < |settings| ==> TaggedName(settings[k]) != name
    ensures r.Some? ==> exists k :: 0 <= k < |settings| && settings[k] == r.value && TaggedName(r.value) == name
                                     && forall j :: 0 <= j < k ==> TaggedName(settings[j]) != name
  {
    match IndexOf(settings, TaggedName, name)
    case None => None
    case Some(i) => Some(settings[i])
  }

  /** The verbose name shown: the field's, followed by ` (label)` when it has a label. */
  function Labelled(f: Field): (v: string)
    ensures f.sourceLabel == "" ==> v == f.verboseName
    ensures f.sourceLabel != "" ==> v == f.verboseName + " (" + f.sourceLabel + ")"
  {
    if f.sourceLabel != "" then f.verboseName + " (" + f.sourceLabel + ")" else f.verboseName
  }

  /**
   * The row of the merged field at position `index`: the first saved
   * setting of the same name gives custom name, orders and flags; without
   * one both orders are (index + 1) * 10, the field is listed and neither
   * searched nor filtered.
   */
  function RowFor(f: Field, index: nat, settings: seq<Tagged>): (r: Row)
    ensures r.modelFieldName == f.name && r.verboseName == Labelled(f) && r.source == f.source && r.helpText == f.helpText
    ensures SettingFor(settings, f.name).None? ==>
      r.displayOrder == (index + 1) * 10 && r.searchOrder == (index + 1) * 10 && r.displayName == ""
      && r.isListDisplay && !r.isSearchField && !r.isListFilter
    ensures SettingFor(settings, f.name).Some? ==>
      var s := SettingFor(settings, f.name).value.view.setting;
      r.displayOrder == s.displayOrder && r.searchOrder == s.searchOrder && r.displayName == s.displayName
      && r.isListDisplay == s.isListDisplay && r.isSearchField == s.isSearchField && r.isListFilter == s.isListFilter
  {
    var v := Labelled(f);
    match SettingFor(settings, f.name)
    case None => Row(f.name, v, f.helpText, f.source, "", (index + 1) * 10, (index + 1) * 10, true, false, false)
    case Some(t) =>
      var s := t.view.setting;
      Row(f.name, v, f.helpText, f.source, s.displayName, s.displayOrder, s.searchOrder,
          s.isListDisplay, s.isSearchField, s.isListFilter)
  }

  /** `modelFields.map(...)`: one row per merged field, in map order. */
  function RowsOf(fields: seq<Field>, settings: seq<Tagged>): (rows: seq<Row>)
    ensures |rows| == |fields|
    ensures forall i :: 0 <= i < |rows| ==> rows[i] == RowFor(fields[i], i, settings)
  {
    seq(|fields|, i requires 0 <= i < |fields| => RowFor(fields[i], i, settings))
  }

  function BuildRows(page: string, config: PageConfig, data: seq<TypeData>): seq<Row>
    requires |data| == |config.fetch|
  {
    RowsOf(Combined(page, config, data), AllSettings(config, data, 0))
  }

  /** The rows have distinct names, since the merged fields do. */
  lemma BuildRowsDistinct(page: string, config: PageConfig, data: seq<TypeData>)
    requires |data| == |config.fetch|
    ensures DistinctBy(BuildRows(page, config, data), RowName)
  {
    CombinedDistinct(page, config, data);
    var c := Combined(page, config, data);
    var rows := BuildRows(page, config, data);
    forall i, j | 0 <= i < j < |rows| ensures RowName(rows[i]) != RowName(rows[j]) {
      assert RowName(rows[i]) == FieldName(c[i]) && RowName(rows[j]) == FieldName(c[j]);
    }
  }

  /**
   * A setting of the first type read wins over a later type's setting of
   * the same field: on the goods-receipt page the purchase-order setting
   * wins over the receipt setting.
   */
  lemma PurchaseOrderSettingWins(config: PageConfig, data: seq<TypeData>, name: string)
    requires |data| == |config.fetch| >= 1
    requires exists v :: v in data[0].settings && v.setting.modelFieldName == name
    ensures var s := SettingFor(AllSettings(config, data, 0), name);
      s.Some? && s.value.source == config.fetch[0]
  {
    var all := AllSettings(config, data, 0);
    var n := |data[0].settings|;
    assert forall k :: 0 <= k < n ==> all[k] == Tagged(data[0].settings[k], config.fetch[0]);
    var v :| v in data[0].settings && v.setting.modelFieldName == name;
    var k :| 0 <= k < n && data[0].settings[k] == v;
    assert TaggedName(all[k]) == name;
    var s := SettingFor(all, name).value;
    var p :| 0 <= p < |all| && all[p] == s && TaggedName(s) == name
             && forall j :: 0 <= j < p ==> TaggedName(all[j]) != name;
    assert p <= k;
  }

  /** The three switches of a row. */
  datatype Edit = ListDisplaySwitch(checked: bool) | SearchFieldSwitch(checked: bool) | ListFilterSwitch(checked: bool)

  function ApplyEdit(r: Row, e: Edit): (n: Row)
    ensures n.modelFieldName == r.modelFieldName && n.verboseName == r.verboseName && n.source == r.source
    ensures n.displayName == r.displayName && n.displayOrder == r.displayOrder && n.searchOrder == r.searchOrder
    ensures n.isListDisplay == (if e.ListDisplaySwitch? then e.checked else r.isListDisplay)
    ensures n.isSearchField == (if e.SearchFieldSwitch? then e.checked else r.isSearchField)
    ensures n.isListFilter == (if e.ListFilterSwitch? then e.checked else r.isListFilter)
  {
    match e
    case ListDisplaySwitch(c) => r.(isListDisplay := c)
    case SearchFieldSwitch(c) => r.(isSearchField := c)
    case ListFilterSwitch(c) => r.(isListFilter := c)
  }

  // ---------------------------------------------------------------------
  // Drag and drop
  // ---------------------------------------------------------------------

  /** The table a drag happened in: the list table orders by display order, the search table by search order. */
  datatype OrderKey = ListOrder | SearchOrder

  function DisplayOrderOf(r: Row): int { r.displayOrder }
  function SearchOrderOf(r: Row): int { r.searchOrder }

  function KeyFn(key: OrderKey): Row -> int
  {
    if key == ListOrder then DisplayOrderOf else SearchOrderOf
  }

  /** `{...item, [orderKey]: n}`: only the dragged table's order changes. */
  function SetKey(r: Row, key: OrderKey, n: int): (s: Row)
    ensures KeyFn(key)(s) == n
    ensures key == ListOrder ==> s == r.(displayOrder := n)
    ensures key == SearchOrder ==> s == r.(searchOrder := n)
  {
    if key == ListOrder then r.(displayOrder := n) else r.(searchOrder := n)
  }

  /**
   * `orderMap`: each name mapped to 10 times its position plus one, a later
   * element overwriting an earlier one of the same name.
   */
  function OrderMap(items: seq<Row>): (m: map<string, int>)
    ensures forall k :: 0 <= k < |items| ==> items[k].modelFieldName in m
    decreases |items|
  {
    if items == [] then map[]
    else
      var init := items[..|items| - 1];
      assert forall k :: 0 <= k < |items| - 1 ==> items[k] == init[k];
      OrderMap(init)[items[|items| - 1].modelFieldName := |items| * 10]
  }

  /** The position an element gets is its own when no later element has its name. */
  lemma {:induction false} OrderMapLastWins(items: seq<Row>, k: nat)
    requires k < |items|
    requires forall j :: k < j < |items| ==> items[j].modelFieldName != items[k].modelFieldName
    ensures OrderMap(items)[items[k].modelFieldName] == (k + 1) * 10
    decreases |items|
  {
    if k < |items| - 1 {
      var init := items[..|items| - 1];
      assert init[k] == items[k];
      OrderMapLastWins(init, k);
    }
  }

  /** `fieldsData.map(item => ({...item, [orderKey]: orderMap.get(name)}))`. */
  function Reorder(rows: seq<Row>, m: map<string, int>, key: OrderKey): (r: seq<Row>)
    requires forall k :: 0 <= k < |rows| ==> rows[k].modelFieldName in m
    ensures |r| == |rows|
    ensures forall k :: 0 <= k < |rows| ==> r[k] == SetKey(rows[k], key, m[rows[k].modelFieldName])
  {
    seq(|rows|, k requires 0 <= k < |rows| => SetKey(rows[k], key, m[rows[k].modelFieldName]))
  }

  /** The rendered order of a table with the dragged row moved. */
  function MovedView(rows: seq<Row>, key: OrderKey, from: nat, to: nat): (v: seq<Row>)
    requires from < |rows| && to < |rows|
    ensures |v| == |rows| && multiset(v) == multiset(rows)
  {
    var sorted := SortBy(rows, KeyFn(key));
    MovePermutes(sorted, from, to);
    Move(sorted, from, to)
  }

  /** Every row's name is in the order map of the moved view. */
  lemma MovedViewHoldsAll(rows: seq<Row>, key: OrderKey, from: nat, to: nat)
    requires from < |rows| && to < |rows|
    ensures forall k :: 0 <= k < |rows| ==> rows[k].modelFieldName in OrderMap(MovedView(rows, key, from, to))
  {
    var v := MovedView(rows, key, from, to);
    forall k | 0 <= k < |rows| ensures rows[k].modelFieldName in OrderMap(v) {
      assert rows[k] in multiset(v);
      var p :| 0 <= p < |v| && v[p] == rows[k];
    }
  }

  /** `handleDragEnd` with a destination: the array keeps its order; only the dragged table's order changes. */
  function Dragged(rows: seq<Row>, key: OrderKey, from: nat, to: nat): seq<Row>
    requires from < |rows| && to < |rows|
  {
    MovedViewHoldsAll(rows, key, from, to);
    Reorder(rows, OrderMap(MovedView(rows, key, from, to)), key)
  }

  /**
   * With distinct names, a drag gives every row 10 times its position in
   * the moved view plus one, so that table's orders become 10, 20, …, 10n;
   * nothing else of any row, and not the array's order, changes.
   */
  lemma DraggedMeaning(rows: seq<Row>, key: OrderKey, from: nat, to: nat)
    requires from < |rows| && to < |rows|
    requires DistinctBy(rows, RowName)
    ensures |Dragged(rows, key, from, to)| == |rows|
    ensures forall k :: 0 <= k < |rows| ==>
      exists p :: 0 <= p < |rows| && MovedView(rows, key, from, to)[p] == rows[k]
                  && Dragged(rows, key, from, to)[k] == SetKey(rows[k], key, (p + 1) * 10)
  {
    MovedViewDistinct(rows, key, from, to);
    forall k | 0 <= k < |rows|
      ensures exists p :: 0 <= p < |rows| && MovedView(rows, key, from, to)[p] == rows[k]
                          && Dragged(rows, key, from, to)[k] == SetKey(rows[k], key, (p + 1) * 10)
    {
      var p := DraggedRow(rows, key, from, to, k);
    }
  }

  /** The row that lands at the destination is the one rendered at the source. */
  lemma DraggedRowLands(rows: seq<Row>, key: OrderKey, from: nat, to: nat)
    requires from < |rows| && to < |rows|
    ensures MovedView(rows, key, from, to)[to] == SortBy(rows, KeyFn(key))[from]
  {
    MovePermutes(SortBy(rows, KeyFn(key)), from, to);
  }

  /** With distinct names the dragged table's orders are pairwise different. */
  lemma DraggedOrdersDistinct(rows: seq<Row>, key: OrderKey, from: nat, to: nat)
    requires from < |rows| && to < |rows|
    requires DistinctBy(rows, RowName)
    ensures forall i, j :: 0 <= i < j < |rows| ==>
      KeyFn(key)(Dragged(rows, key, from, to)[i]) != KeyFn(key)(Dragged(rows, key, from, to)[j])
  {
    MovedViewDistinct(rows, key, from, to);
    forall i, j | 0 <= i < j < |rows|
      ensures KeyFn(key)(Dragged(rows, key, from, to)[i]) != KeyFn(key)(Dragged(rows, key, from, to)[j])
    {
      DraggedKeysDiffer(rows, key, from, to, i, j);
    }
  }

  /** Two different rows get different orders. */
  lemma DraggedKeysDiffer(rows: seq<Row>, key: OrderKey, from: nat, to: nat, i: nat, j: nat)
    requires from < |rows| && to < |rows| && i < j < |rows|
    requires DistinctBy(rows, RowName)
    requires DistinctBy(MovedView(rows, key, from, to), RowName)
    ensures KeyFn(key)(Dragged(rows, key, from, to)[i]) != KeyFn(key)(Dragged(rows, key, from, to)[j])
  {
    var p := DraggedRow(rows, key, from, to, i);
    var q := DraggedRow(rows, key, from, to, j);
    assert RowName(rows[i]) != RowName(rows[j]);
  }

  /** Sorting and moving keep the names distinct. */
  lemma MovedViewDistinct(rows: seq<Row>, key: OrderKey, from: nat, to: nat)
    requires from < |rows| && to < |rows|
    requires DistinctBy(rows, RowName)
    ensures DistinctBy(MovedView(rows, key, from, to), RowName)
  {
    SortByDistinct(rows, KeyFn(key), RowName);
    MoveDistinct(SortBy(rows, KeyFn(key)), from, to, RowName);
  }

  /** The row at `k` gets the position `p` it holds in the moved view. */
  lemma DraggedRow(rows: seq<Row>, key: OrderKey, from: nat, to: nat, k: nat) returns (p: nat)
    requires from < |rows| && to < |rows| && k < |rows|
    requires DistinctBy(MovedView(rows, key, from, to), RowName)
    ensures p < |rows| && MovedView(rows, key, from, to)[p] == rows[k]
    ensures Dragged(rows, key, from, to)[k] == SetKey(rows[k], key, (p + 1) * 10)
  {
    var v := MovedView(rows, key, from, to);
    assert rows[k] in multiset(v);
    p :| 0 <= p < |v| && v[p] == rows[k];
    OrderMapLastWins(v, p);
  }

  // ---------------------------------------------------------------------
  // Saving
  // ---------------------------------------------------------------------

  /** The characters JavaScript's `.` does not match. */
  predicate LineTerminator(c: char)
  {
    c == '\n' || c == '\r' || c == '\U{2028}' || c == '\U{2029}'
  }

  /** The pattern ` \(.+\)$` matches `s` from index `i` to its end. */
  predicate LabelMatchAt(s: string, i: nat)
  {
    i + 4 <= |s| && s[i] == ' ' && s[i + 1] == '(' && s[|s| - 1] == ')'
    && forall j :: i + 2 <= j < |s| - 1 ==> !LineTerminator(s[j])
  }

  /** The leftmost match at or after `i`. */
  function FirstLabelMatch(s: string, i: nat): (r: Option<nat>)
    ensures r.Some? ==> i <= r.value && LabelMatchAt(s, r.value)
    ensures r.Some? ==> forall j :: i <= j < r.value ==> !LabelMatchAt(s, j)
    ensures r.None? ==> forall j :: i <= j ==> !LabelMatchAt(s, j)
    decreases |s| - i
  {
    if i + 4 > |s| then None
    else if LabelMatchAt(s, i) then Some(i)
    else FirstLabelMatch(s, i + 1)
  }

  /**
   * `verbose_name.replace(/ \(.+\)$/, '')`: without a match the text is
   * kept; otherwise it is cut at the leftmost place where a match begins.
   */
  function BaseName(s: string): (r: string)
    ensures |r| <= |s| && r == s[..|r|]
    ensures r == s <==> forall j :: 0 <= j < |s| ==> !LabelMatchAt(s, j)
    ensures r != s ==> LabelMatchAt(s, |r|) && forall j :: 0 <= j < |r| ==> !LabelMatchAt(s, j)
  {
    match FirstLabelMatch(s, 0)
    case None => s
    case Some(p) => s[..p]
  }

  /**
   * The label added when the rows are built is removed again: a name with
   * no " (" of its own gets back exactly what it was.
   */
  lemma BaseNameOfLabelled(v: string, sourceLabel: string)
    requires sourceLabel != "" && forall j :: 0 <= j < |sourceLabel| ==> !LineTerminator(sourceLabel[j])
    requires forall j :: 0 <= j < |v| - 1 ==> !(v[j] == ' ' && v[j + 1] == '(')
    ensures BaseName(v + " (" + sourceLabel + ")") == v
  {
    var s := v + " (" + sourceLabel + ")";
    assert LabelMatchAt(s, |v|) by {
      forall j | |v| + 2 <= j < |s| - 1 ensures !LineTerminator(s[j]) {
        assert s[j] == sourceLabel[j - |v| - 2];
      }
    }
    forall j | 0 <= j < |v| ensures !LabelMatchAt(s, j) {
      if j < |v| - 1 {
        assert s[j] == v[j] && s[j + 1] == v[j + 1];
      } else {
        assert s[j + 1] == ' ';
      }
    }
    assert s[..|v|] == v;
  }

  /** A name that holds " (" itself loses everything from there: "a (b) (c)" is saved as "a". */
  lemma BaseNameCutsAtFirstParenthesis()
    ensures BaseName("a (b) (c)") == "a"
  {
    var s := "a (b) (c)";
    assert !LabelMatchAt(s, 0);
    assert LabelMatchAt(s, 1);
  }

  /** The saved and shown custom name: the row's own, else the base name, else the verbose name. */
  function SaveDisplayName(r: Row): (n: string)
    ensures r.displayName != "" ==> n == r.displayName
    ensures r.displayName == "" && BaseName(r.verboseName) != "" ==> n == BaseName(r.verboseName)
    ensures r.verboseName != "" ==> n != ""
  {
    OrElse(OrElse(r.displayName, BaseName(r.verboseName)), r.verboseName)
  }

  /** A labelled row without a custom name is saved under the field's verbose name. */
  lemma SavedNameDropsLabel(f: Field, index: nat, settings: seq<Tagged>)
    requires SettingFor(settings, f.name).None?
    requires f.verboseName != "" && f.sourceLabel != ""
    requires forall j :: 0 <= j < |f.sourceLabel| ==> !LineTerminator(f.sourceLabel[j])
    requires forall j :: 0 <= j < |f.verboseName| - 1 ==> !(f.verboseName[j] == ' ' && f.verboseName[j + 1] == '(')
    ensures SaveDisplayName(RowFor(f, index, settings)) == f.verboseName
  {
    BaseNameOfLabelled(f.verboseName, f.sourceLabel);
  }

  /** One object of a save body: all seven keys, orders as `Number(x) || 0` of integers. */
  function SaveInput(r: Row): (d: BaseApi.SettingInput)
    ensures d.modelFieldName == Some(r.modelFieldName) && d.displayName == Some(SaveDisplayName(r))
    ensures d.displayOrder == Some(r.displayOrder) && d.searchOrder == Some(r.searchOrder)
    ensures d.isListDisplay == Some(r.isListDisplay) && d.isSearchField == Some(r.isSearchField)
    ensures d.isListFilter == Some(r.isListFilter)
  {
    BaseApi.SettingInput(Some(r.modelFieldName), Some(SaveDisplayName(r)), Some(r.displayOrder), Some(r.searchOrder),
                         Some(r.isListDisplay), Some(r.isSearchField), Some(r.isListFilter))
  }

  function SourceRows(rows: seq<Row>, dataType: string): (r: seq<Row>)
    ensures forall x :: x in r <==> x in rows && x.source == dataType
  {
    Filter(rows, (x: Row) => x.source == dataType)
  }

  /** One bulk-save request: the data type and its body. */
  datatype Post = Post(dataType: string, body: seq<BaseApi.SettingInput>)

  /**
   * The requests of `handleSave`: for each fetched type in order, the rows
   * of that source, skipped when there are none.
   */
  function SavePlan(rows: seq<Row>, types: seq<string>): (plan: seq<Post>)
    ensures |plan| <= |types|
    ensures forall p :: p in plan ==>
      p.dataType in types && p.body != [] && p.body == MapSeq(SourceRows(rows, p.dataType), SaveInput)
  {
    if types == [] then []
    else
      var rest := SavePlan(rows, types[1..]);
      var body := MapSeq(SourceRows(rows, types[0]), SaveInput);
      assert forall t :: t in types[1..] ==> t in types;
      if body == [] then rest else [Post(types[0], body)] + rest
  }

  /** No fetched type that has rows is skipped. */
  lemma {:induction false} SavePlanCovers(rows: seq<Row>, types: seq<string>, t: string)
    requires t in types && SourceRows(rows, t) != []
    ensures exists i :: 0 <= i < |SavePlan(rows, types)| && SavePlan(rows, types)[i].dataType == t
  {
    var plan := SavePlan(rows, types);
    var rest := SavePlan(rows, types[1..]);
    var body := MapSeq(SourceRows(rows, types[0]), SaveInput);
    assert plan == if body == [] then rest else [Post(types[0], body)] + rest;
    if t == types[0] {
      assert |body| == |SourceRows(rows, t)|;
      assert plan[0].dataType == t;
    } else {
      assert t in types[1..];
      SavePlanCovers(rows, types[1..], t);
      var i :| 0 <= i < |rest| && rest[i].dataType == t;
      if body == [] {
        assert plan[i] == rest[i];
      } else {
        assert plan[i + 1] == rest[i];
      }
    }
  }

  /** Every row of a fetched type is sent, in the request of its own type. */
  lemma EveryRowSavedWithItsType(rows: seq<Row>, types: seq<string>, k: nat)
    requires k < |rows| && rows[k].source in types
    ensures exists p :: p in SavePlan(rows, types) && p.dataType == rows[k].source && SaveInput(rows[k]) in p.body
  {
    var t := rows[k].source;
    var src := SourceRows(rows, t);
    assert rows[k] in rows;
    assert rows[k] in src;
    assert src != [];
    var plan := SavePlan(rows, types);
    SavePlanCovers(rows, types, t);
    var e :| 0 <= e < |plan| && plan[e].dataType == t;
    var p := plan[e];
    assert p in plan;
    var i :| 0 <= i < |src| && src[i] == rows[k];
    assert p.body[i] == SaveInput(rows[k]);
  }

  /** The answer to one bulk-save request; `message` is "" when the body has none. */
  datatype Reply = Reply(ok: bool, message: string)

  function ReplyOk(r: Reply): bool { r.ok }
  function ReplyMessage(r: Reply): string { r.message }

  /**
   * The status after all requests answered: the first failure's message
   * (else a fixed text) in red, or the non-empty messages joined by spaces
   * (else a fixed text) in green.
   */
  function SaveOutcome(replies: seq<Reply>): (s: SaveStatus)
    ensures s.show && s.message != ""
    ensures (exists k :: 0 <= k < |replies| && !replies[k].ok) <==> s.variant == "danger"
    ensures (forall k :: 0 <= k < |replies| ==> replies[k].ok) <==> s.variant == "success"
    ensures (forall k :: 0 <= k < |replies| ==> replies[k].ok && replies[k].message == "") ==> s.message == SavedDefault
  {
    match IndexOf(replies, ReplyOk, false)
    case Some(i) => SaveStatus(OrElse(replies[i].message, BulkSaveFailed), "danger", true)
    case None =>
      var texts := Filter(MapSeq(replies, ReplyMessage), Truthy);
      assert texts != [] ==> texts[0] != "";
      SaveStatus(OrElse(Join(texts, " "), SavedDefault), "success", true)
  }

  /** `fetchAllData`'s outcome: the two answers of every fetched type, or the text of a failure. */
  datatype Fetched = Loaded(data: seq<TypeData>) | LoadFailed(message: string)

  class Screen {
    var fieldsData: seq<Row>
    var selectedDataType: string
    var loading: bool
    var error: Option<string>
    var isSaving: bool
    var saveStatus: SaveStatus

    constructor ()
      ensures fieldsData == [] && selectedDataType == PageTypes[0]
      ensures !loading && error.None? && !isSaving && saveStatus == HiddenStatus
    {
      fieldsData := [];
      selectedDataType := PageTypes[0];
      loading := false;
      error := None;
      isSaving := false;
      saveStatus := HiddenStatus;
    }

    /**
     * `fetchAllData(page)`: an unconfigured page or a failed request shows
     * its text and keeps the rows; otherwise the rows are rebuilt from the
     * merged fields.
     */
    method FetchAllData(page: string, answer: Fetched)
      requires ConfigOf(page).Some? && answer.Loaded? ==> |answer.data| == |ConfigOf(page).value.fetch|
      modifies this
      ensures !loading && saveStatus == old(saveStatus).(show := false)
      ensures ConfigOf(page).None? ==> fieldsData == old(fieldsData) && error == Some(UnknownTypePrefix + page)
      ensures ConfigOf(page).Some? && answer.LoadFailed? ==> fieldsData == old(fieldsData) && error == Some(answer.message)
      ensures ConfigOf(page).Some? && answer.Loaded? ==>
        fieldsData == BuildRows(page, ConfigOf(page).value, answer.data) && error.None?
      ensures selectedDataType == old(selectedDataType) && isSaving == old(isSaving)
    {
      loading := true;
      error := None;
      saveStatus := saveStatus.(show := false);
      var config := ConfigOf(page);
      if config.None? {
        error := Some(UnknownTypePrefix + page);
        loading := false;
        return;
      }
      if answer.LoadFailed? {
        error := Some(answer.message);
        loading := false;
        return;
      }
      var combined := MergeFields(page, config.value, answer.data);
      fieldsData := RowsOf(combined, AllSettings(config.value, answer.data, 0));
      loading := false;
    }

    /** `handleInputChange`: only the switched flag of the row at `index` changes. */
    method HandleInputChange(index: nat, e: Edit)
      requires index < |fieldsData|
      modifies this
      ensures |fieldsData| == |old(fieldsData)|
      ensures fieldsData[index] == ApplyEdit(old(fieldsData)[index], e)
      ensures forall k :: 0 <= k < |fieldsData| && k != index ==> fieldsData[k] == old(fieldsData)[k]
      ensures selectedDataType == old(selectedDataType) && saveStatus == old(saveStatus) && error == old(error)
    {
      fieldsData := fieldsData[index := ApplyEdit(fieldsData[index], e)];
    }

    /** `handleDragEnd`: positions are those of the table as rendered, sorted by its order. */
    method HandleDragEnd(key: OrderKey, source: nat, destination: Option<nat>)
      requires source < |fieldsData|
      requires destination.Some? ==> destination.value < |fieldsData|
      modifies this
      ensures destination.None? ==> fieldsData == old(fieldsData)
      ensures destination.Some? ==> fieldsData == Dragged(old(fieldsData), key, source, destination.value)
      ensures selectedDataType == old(selectedDataType) && saveStatus == old(saveStatus) && error == old(error)
    {
      if destination.None? {
        return;
      }
      var rows := fieldsData;
      var orderMap := BuildOrderMap(MovedView(rows, key, source, destination.value));
      MovedViewHoldsAll(rows, key, source, destination.value);
      var next := Reorder(rows, orderMap, key);
      fieldsData := next;
    }

    /** The loop that fills `orderMap` from the moved view. */
    static method BuildOrderMap(items: seq<Row>) returns (orderMap: map<string, int>)
      ensures orderMap == OrderMap(items)
    {
      orderMap := map[];
      var i := 0;
      while i < |items|
        invariant 0 <= i <= |items|
        invariant orderMap == OrderMap(items[..i])
      {
        assert items[..i + 1][..i] == items[..i];
        orderMap := orderMap[items[i].modelFieldName := (i + 1) * 10];
        i := i + 1;
      }
      assert items[..i] == items;
    }

    /**
     * `handleSave`: an unconfigured page shows its text in red and sends
     * nothing; otherwise the requests of the save plan are sent.
     */
    method HandleSave() returns (posts: seq<Post>)
      modifies this
      ensures fieldsData == old(fieldsData) && selectedDataType == old(selectedDataType)
      ensures ConfigOf(selectedDataType).None? ==>
        posts == [] && !isSaving && saveStatus == SaveStatus(UnknownTypePrefix + selectedDataType, "danger", true)
      ensures ConfigOf(selectedDataType).Some? ==>
        posts == SavePlan(fieldsData, ConfigOf(selectedDataType).value.fetch) && isSaving && saveStatus == HiddenStatus
    {
      isSaving := true;
      saveStatus := HiddenStatus;
      var config := ConfigOf(selectedDataType);
      if config.None? {
        saveStatus := SaveStatus(UnknownTypePrefix + selectedDataType, "danger", true);
        isSaving := false;
        return [];
      }
      posts := SavePlan(fieldsData, config.value.fetch);
    }

    /** The answers arrived: the outcome is shown, and a full success asks for a reload. */
    method FinishSave(replies: seq<Reply>) returns (reload: bool)
      modifies this
      ensures !isSaving && saveStatus == SaveOutcome(replies)
      ensures reload <==> forall k :: 0 <= k < |replies| ==> replies[k].ok
      ensures fieldsData == old(fieldsData) && selectedDataType == old(selectedDataType)
    {
      saveStatus := SaveOutcome(replies);
      reload := saveStatus.variant == "success";
      isSaving := false;
    }
  }

  /**
   * The field map of `fetchAllData`: the settings are collected type by
   * type; each type's fields except `id` are added unless the name is
   * already there, then each setting's field, then `part_name` on the
   * inventory page.
   */
  method MergeFields(page: string, config: PageConfig, data: seq<TypeData>) returns (combined: seq<Field>)
    requires |data| == |config.fetch|
    ensures combined == Combined(page, config, data)
  {
    ghost var target := Combined(page, config, data);
    var extra := ExtraCandidates(page);
    ghost var rest := MapSeq(AllSettings(config, data, 0), SettingCandidate) + extra;
    assert Candidates(page, config, data) == ModelCandidates(config, data, 0) + rest;
    var allSettings;
    combined, allSettings := MergeModelFields(config, data, rest, target);
    combined := AddSettingFields(combined, allSettings, extra, target);
    if page == "inventory" {
      AppendNewCons(combined, PartNameField, [], FieldName);
      assert [PartNameField] + [] == extra;
      if IndexOf(combined, FieldName, "part_name").None? {
        combined := combined + [PartNameField];
      }
    }
  }

  /** The loop over the fetched types: their settings collected, their fields offered to the map. */
  method MergeModelFields(config: PageConfig, data: seq<TypeData>, ghost rest: seq<Field>, ghost target: seq<Field>)
    returns (combined: seq<Field>, allSettings: seq<Tagged>)
    requires |data| == |config.fetch|
    requires AppendNew([], ModelCandidates(config, data, 0) + rest, FieldName) == target
    ensures allSettings == AllSettings(config, data, 0)
    ensures AppendNew(combined, rest, FieldName) == target
  {
    allSettings := [];
    combined := [];
    var i := 0;
    while i < |data|
      invariant 0 <= i <= |data|
      invariant allSettings + AllSettings(config, data, i) == AllSettings(config, data, 0)
      invariant AppendNew(combined, ModelCandidates(config, data, i) + rest, FieldName) == target
    {
      var t := config.fetch[i];
      ghost var later := ModelCandidates(config, data, i + 1) + rest;
      TypeLoopStep(config, data, i, rest, allSettings);
      allSettings := allSettings + TagAll(data[i].settings, t);
      combined := AddTypeFields(combined, data[i].fields, t, LabelFor(config, t), later, target);
      i := i + 1;
    }
    assert allSettings + [] == allSettings;
    assert ModelCandidates(config, data, i) + rest == rest;
  }

  /** What one round of the type loop consumes. */
  lemma TypeLoopStep(config: PageConfig, data: seq<TypeData>, i: nat, rest: seq<Field>, acc: seq<Tagged>)
    requires |data| == |config.fetch| && i < |data|
    ensures ModelCandidates(config, data, i) + rest
         == TypeCandidates(data[i].fields, config.fetch[i], LabelFor(config, config.fetch[i]))
            + (ModelCandidates(config, data, i + 1) + rest)
    ensures acc + AllSettings(config, data, i)
         == (acc + TagAll(data[i].settings, config.fetch[i])) + AllSettings(config, data, i + 1)
  {
    var fields := TypeCandidates(data[i].fields, config.fetch[i], LabelFor(config, config.fetch[i]));
    var later := ModelCandidates(config, data, i + 1);
    assert ModelCandidates(config, data, i) == fields + later;
    assert (fields + later) + rest == fields + (later + rest);
    var tagged := TagAll(data[i].settings, config.fetch[i]);
    var settings := AllSettings(config, data, i + 1);
    assert AllSettings(config, data, i) == tagged + settings;
    assert acc + (tagged + settings) == (acc + tagged) + settings;
  }

  /** `fields.forEach(...)` for one fetched type: each field except `id` whose name is new is added. */
  method AddTypeFields(combined: seq<Field>, fields: seq<ModelField>, t: string, sourceLabel: string,
                       ghost later: seq<Field>, ghost target: seq<Field>) returns (r: seq<Field>)
    requires AppendNew(combined, TypeCandidates(fields, t, sourceLabel) + later, FieldName) == target
    ensures AppendNew(r, later, FieldName) == target
  {
    r := combined;
    var j := 0;
    while j < |fields|
      invariant 0 <= j <= |fields|
      invariant AppendNew(r, TypeCandidates(fields[j..], t, sourceLabel) + later, FieldName) == target
    {
      TypeStep(r, fields, j, t, sourceLabel, later);
      if fields[j].name != "id" && IndexOf(r, FieldName, fields[j].name).None? {
        r := r + [ModelCandidate(fields[j], t, sourceLabel)];
      }
      j := j + 1;
    }
    assert TypeCandidates(fields[j..], t, sourceLabel) + later == later;
  }

  /** One field of the type loop. */
  lemma TypeStep(r: seq<Field>, fields: seq<ModelField>, j: nat, t: string, sourceLabel: string, later: seq<Field>)
    requires j < |fields|
    ensures AppendNew(r, TypeCandidates(fields[j..], t, sourceLabel) + later, FieldName)
         == AppendNew(if fields[j].name != "id" && IndexOf(r, FieldName, fields[j].name).None?
                      then r + [ModelCandidate(fields[j], t, sourceLabel)] else r,
                      TypeCandidates(fields[j + 1..], t, sourceLabel) + later, FieldName)
  {
    assert fields[j..][1..] == fields[j + 1..];
    var tail := TypeCandidates(fields[j + 1..], t, sourceLabel);
    if fields[j].name != "id" {
      var c := ModelCandidate(fields[j], t, sourceLabel);
      assert TypeCandidates(fields[j..], t, sourceLabel) + later == [c] + (tail + later);
      AppendNewCons(r, c, tail + later, FieldName);
    } else {
      assert TypeCandidates(fields[j..], t, sourceLabel) == tail;
    }
  }

  /** `allSettings.forEach(...)`: each setting whose field name is new adds a restored field. */
  method AddSettingFields(combined: seq<Field>, allSettings: seq<Tagged>, extra: seq<Field>, ghost target: seq<Field>)
    returns (r: seq<Field>)
    requires AppendNew(combined, MapSeq(allSettings, SettingCandidate) + extra, FieldName) == target
    ensures AppendNew(r, extra, FieldName) == target
  {
    r := combined;
    var k := 0;
    while k < |allSettings|
      invariant 0 <= k <= |allSettings|
      invariant AppendNew(r, MapSeq(allSettings[k..], SettingCandidate) + extra, FieldName) == target
    {
      SettingStep(r, allSettings, k, extra);
      var c := SettingCandidate(allSettings[k]);
      if IndexOf(r, FieldName, c.name).None? {
        r := r + [c];
      }
      k := k + 1;
    }
    assert MapSeq(allSettings[k..], SettingCandidate) + extra == extra;
  }

  /** One setting of the settings loop. */
  lemma SettingStep(r: seq<Field>, allSettings: seq<Tagged>, k: nat, extra: seq<Field>)
    requires k < |allSettings|
    ensures var c := SettingCandidate(allSettings[k]);
      AppendNew(r, MapSeq(allSettings[k..], SettingCandidate) + extra, FieldName)
      == AppendNew(if IndexOf(r, FieldName, c.name).None? then r + [c] else r,
                   MapSeq(allSettings[k + 1..], SettingCandidate) + extra, FieldName)
  {
    var c := SettingCandidate(allSettings[k]);
    var tail := MapSeq(allSettings[k + 1..], SettingCandidate);
    assert MapSeq(allSettings[k..], SettingCandidate) + extra == [c] + (tail + extra);
    AppendNewCons(r, c, tail + extra, FieldName);
  }
}
