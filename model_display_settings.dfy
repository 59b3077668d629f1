/**
 * The model display settings screen (frontend/src/pages/ModelDisplaySettings.tsx):
 * one editable row per model field of the chosen data type, merged with the
 * saved display settings, reordered by drag and drop and saved in bulk.
 */
module ModelDisplaySettingsPage {
  import opened Common
  import opened Json
  import opened BaseModels
  import opened ListOps
  import BaseApi

  /** The data types the screen offers, the first one selected at start. */
  const ScreenDataTypes: seq<string> := ["item", "supplier", "warehouse", "purchase_order", "production_plan", "parts_used"]

  /** One row of the table. */
  datatype Row = Row(
    modelFieldName: string,
    verboseName: string,
    displayName: string,
    helpText: string,
    displayOrder: int,
    isListDisplay: bool,
    isSearchField: bool,
    isListFilter: bool)

  function RowName(r: Row): string { r.modelFieldName }
  function RowOrder(r: Row): int { r.displayOrder }
  function WithOrder(r: Row, n: int): Row { r.(displayOrder := n) }
  function SettingName(s: ModelDisplaySetting): string { s.modelFieldName }

  /** `settings.find(s => s.model_field_name === name)`: the first saved setting of that field. */
  function SettingFor(settings: seq<ModelDisplaySetting>, name: string): (r: Option<ModelDisplaySetting>)
    ensures r.None? <==> forall k :: 0 <= k < |settings| ==> settings[k].modelFieldName != name
    ensures r.Some? ==> r.value in settings && r.value.modelFieldName == name
    ensures r.Some? ==> exists k :: 0 <= k < |settings| && settings[k] == r.value
                                     && forall j :: 0 <= j < k ==> settings[j].modelFieldName != name
  {
    match IndexOf(settings, SettingName, name)
    case None => None
    case Some(i) => Some(settings[i])
  }

  /**
   * The row of the field at position `index` of the non-`id` fields: the
   * saved values when a setting exists (a saved order 0 is kept), else
   * order (index + 1) * 10, listed, not searched, not filtered, no custom name.
   */
  function RowFor(f: ModelField, index: nat, settings: seq<ModelDisplaySetting>): (r: Row)
    ensures r.modelFieldName == f.name && r.verboseName == f.verboseName && r.helpText == f.helpText
    ensures SettingFor(settings, f.name).None? ==>
      r.displayOrder == (index + 1) * 10 && r.displayName == ""
      && r.isListDisplay && !r.isSearchField && !r.isListFilter
    ensures SettingFor(settings, f.name).Some? ==>
      var s := SettingFor(settings, f.name).value;
      r.displayOrder == s.displayOrder && r.displayName == s.displayName
      && r.isListDisplay == s.isListDisplay && r.isSearchField == s.isSearchField && r.isListFilter == s.isListFilter
  {
    match SettingFor(settings, f.name)
    case None => Row(f.name, f.verboseName, "", f.helpText, (index + 1) * 10, true, false, false)
    case Some(s) => Row(f.name, f.verboseName, s.displayName, f.helpText, s.displayOrder,
                        s.isListDisplay, s.isSearchField, s.isListFilter)
  }

  predicate NotId(f: ModelField) { f.name != "id" }

  /** The rows in field order, before the sort. */
  function FieldRows(fields: seq<ModelField>, settings: seq<ModelDisplaySetting>): (rows: seq<Row>)
    ensures |rows| == |Filter(fields, NotId)|
    ensures forall i :: 0 <= i < |rows| ==> rows[i] == RowFor(Filter(fields, NotId)[i], i, settings)
  {
    var fs := Filter(fields, NotId);
    seq(|fs|, i requires 0 <= i < |fs| => RowFor(fs[i], i, settings))
  }

  /** `fetchAllData`: the field rows sorted by display order (stable). */
  function BuildRows(fields: seq<ModelField>, settings: seq<ModelDisplaySetting>): seq<Row>
  {
    SortBy(FieldRows(fields, settings), RowOrder)
  }

  /**
   * The table holds one row per model field except `id`, the same rows the
   * fields give, in display order.
   */
  lemma BuildRowsMeaning(fields: seq<ModelField>, settings: seq<ModelDisplaySetting>)
    ensures |BuildRows(fields, settings)| == |Filter(fields, NotId)|
    ensures multiset(BuildRows(fields, settings)) == multiset(FieldRows(fields, settings))
    ensures SortedBy(BuildRows(fields, settings), RowOrder)
    ensures forall r :: r in BuildRows(fields, settings) ==> r.modelFieldName != "id"
    ensures forall f :: f in fields && f.name != "id" ==> exists r :: r in BuildRows(fields, settings) && r.modelFieldName == f.name
  {
    var fs := Filter(fields, NotId);
    var rows := FieldRows(fields, settings);
    SortBySorted(rows, RowOrder);
    SortByMembers(rows, RowOrder);
    forall r | r in BuildRows(fields, settings) ensures r.modelFieldName != "id" {
      var i :| 0 <= i < |rows| && rows[i] == r;
      assert fs[i] in fs;
    }
    forall f | f in fields && f.name != "id"
      ensures exists r :: r in BuildRows(fields, settings) && r.modelFieldName == f.name
    {
      assert f in fs;
      var i :| 0 <= i < |fs| && fs[i] == f;
      assert rows[i] in rows;
    }
  }

  /** With distinct field names the rows have distinct names too. */
  lemma BuildRowsDistinct(fields: seq<ModelField>, settings: seq<ModelDisplaySetting>)
    requires DistinctBy(Filter(fields, NotId), (f: ModelField) => f.name)
    ensures DistinctBy(BuildRows(fields, settings), RowName)
  {
    var rows := FieldRows(fields, settings);
    assert DistinctBy(rows, RowName) by {
      forall i, j | 0 <= i < j < |rows| ensures RowName(rows[i]) != RowName(rows[j]) {
      }
    }
    SortByDistinct(rows, RowOrder, RowName);
  }

  /** One input of a row: the custom-name text box or one of the three switches. */
  datatype Edit =
    | DisplayNameInput(value: string)
    | ListDisplaySwitch(checked: bool)
    | SearchFieldSwitch(checked: bool)
    | ListFilterSwitch(checked: bool)

  /** `{...row, [name]: type === 'checkbox' ? checked : value}`: the named field takes the input, nothing else changes. */
  function ApplyEdit(r: Row, e: Edit): (n: Row)
    ensures n.modelFieldName == r.modelFieldName && n.verboseName == r.verboseName
    ensures n.helpText == r.helpText && n.displayOrder == r.displayOrder
    ensures n.displayName == (if e.DisplayNameInput? then e.value else r.displayName)
    ensures n.isListDisplay == (if e.ListDisplaySwitch? then e.checked else r.isListDisplay)
    ensures n.isSearchField == (if e.SearchFieldSwitch? then e.checked else r.isSearchField)
    ensures n.isListFilter == (if e.ListFilterSwitch? then e.checked else r.isListFilter)
  {
    match e
    case DisplayNameInput(v) => r.(displayName := v)
    case ListDisplaySwitch(c) => r.(isListDisplay := c)
    case SearchFieldSwitch(c) => r.(isSearchField := c)
    case ListFilterSwitch(c) => r.(isListFilter := c)
  }

  /** The drag-end result: the dragged row moved, then every order renumbered 10, 20, 30, … in list order. */
  function Dragged(rows: seq<Row>, from: nat, to: nat): seq<Row>
    requires from < |rows| && to < |rows|
  {
    Renumber(Move(rows, from, to), WithOrder)
  }

  /**
   * After a drag the dragged row sits at its destination, the orders are
   * 10, 20, 30, … so the list is in display order, the other rows keep
   * their relative order, and apart from the order every row is unchanged.
   */
  lemma DraggedMeaning(rows: seq<Row>, from: nat, to: nat)
    requires from < |rows| && to < |rows|
    ensures var d := Dragged(rows, from, to);
      |d| == |rows| && d[to] == WithOrder(rows[from], (to + 1) * 10)
      && (forall k :: 0 <= k < |d| ==> d[k].displayOrder == (k + 1) * 10)
      && SortBy(d, RowOrder) == d
      && (forall k :: 0 <= k < |d| ==> d[k] == WithOrder(Move(rows, from, to)[k], (k + 1) * 10))
      && multiset(Move(rows, from, to)) == multiset(rows)
      && RemoveAt(Move(rows, from, to), to) == RemoveAt(rows, from)
  {
    MovePermutes(rows, from, to);
    MoveKeepsOthersInOrder(rows, from, to);
    RenumberSorted(Move(rows, from, to), WithOrder, RowOrder);
  }

  /** A drag keeps the row names distinct. */
  lemma DraggedDistinct(rows: seq<Row>, from: nat, to: nat)
    requires from < |rows| && to < |rows|
    requires DistinctBy(rows, RowName)
    ensures DistinctBy(Dragged(rows, from, to), RowName)
  {
    var m := Move(rows, from, to);
    MoveDistinct(rows, from, to, RowName);
    var d := Dragged(rows, from, to);
    forall i, j | 0 <= i < j < |d| ensures RowName(d[i]) != RowName(d[j]) {
      assert RowName(d[i]) == RowName(m[i]) && RowName(d[j]) == RowName(m[j]);
    }
  }

  /**
   * The save body: name, custom name, `Number(order) || 0`, and the three
   * flags, with no `search_order` key.
   */
  function SaveInput(r: Row): (d: BaseApi.SettingInput)
    ensures d.modelFieldName == Some(r.modelFieldName) && d.displayName == Some(r.displayName)
    ensures d.displayOrder == Some(r.displayOrder) && d.searchOrder.None?
    ensures d.isListDisplay == Some(r.isListDisplay) && d.isSearchField == Some(r.isSearchField)
    ensures d.isListFilter == Some(r.isListFilter)
  {
    BaseApi.SettingInput(Some(r.modelFieldName), Some(r.displayName), Some(r.displayOrder), None,
                         Some(r.isListDisplay), Some(r.isSearchField), Some(r.isListFilter))
  }

  /**
   * Saving from this screen resets every search order of the data type to
   * the model default 10: the body leaves `search_order` out and the bulk
   * save recreates every row.
   */
  lemma SaveResetsSearchOrder(rows: seq<Row>, dataType: string)
    requires BaseApi.SettingErrors(MapSeq(rows, SaveInput), dataType) == []
    ensures var saved := BaseApi.StagedSettings(MapSeq(rows, SaveInput), dataType);
      |saved| == |rows|
      && forall k :: 0 <= k < |rows| ==> saved[k] == SavedRow(rows[k], dataType)
  {
    var body := MapSeq(rows, SaveInput);
    BaseApi.StagedSettingsComplete(body, dataType);
  }

  /** The record the bulk save stores for one row: search order 10, the row's order when not negative. */
  function SavedRow(r: Row, dataType: string): (s: ModelDisplaySetting)
    ensures s.searchOrder == 10 && s.modelFieldName == Strip(r.modelFieldName) && s.dataType == dataType
    ensures r.displayOrder >= 0 ==> s.displayOrder == r.displayOrder
    ensures s.isListDisplay == r.isListDisplay && s.isSearchField == r.isSearchField && s.isListFilter == r.isListFilter
  {
    BaseApi.SettingRow(SaveInput(r), dataType)
  }

  /** What the two requests of `fetchAllData` gave: both lists, or the error text of the first that failed. */
  datatype Fetched = Loaded(settings: seq<ModelDisplaySetting>, fields: seq<ModelField>) | LoadFailed(message: string)

  class Screen {
    var fieldsData: seq<Row>
    var selectedDataType: string
    var loading: bool
    var error: Option<string>
    var isSaving: bool
    var saveStatus: SaveStatus

    constructor ()
      ensures fieldsData == [] && selectedDataType == ScreenDataTypes[0]
      ensures !loading && error.None? && !isSaving && saveStatus == HiddenStatus
    {
      fieldsData := [];
      selectedDataType := ScreenDataTypes[0];
      loading := false;
      error := None;
      isSaving := false;
      saveStatus := HiddenStatus;
    }

    /** `fetchAllData`: the rows are rebuilt on success; a failure keeps them and shows its text. */
    method FetchAllData(answer: Fetched)
      modifies this
      ensures !loading && saveStatus == old(saveStatus).(show := false)
      ensures answer.Loaded? ==> fieldsData == BuildRows(answer.fields, answer.settings) && error.None?
      ensures answer.LoadFailed? ==> fieldsData == old(fieldsData) && error == Some(answer.message)
      ensures selectedDataType == old(selectedDataType) && isSaving == old(isSaving)
    {
      loading := true;
      error := None;
      saveStatus := saveStatus.(show := false);
      match answer {
        case Loaded(settings, fields) =>
          fieldsData := BuildRows(fields, settings);
        case LoadFailed(m) =>
          error := Some(m);
      }
      loading := false;
    }

    /** `handleInputChange`: only the edited field of the row at `index` changes. */
    method HandleInputChange(index: nat, e: Edit)
      requires index < |fieldsData|
      modifies this
      ensures |fieldsData| == |old(fieldsData)|
      ensures fieldsData[index] == ApplyEdit(old(fieldsData)[index], e)
      ensures forall k :: 0 <= k < |fieldsData| && k != index ==> fieldsData[k] == old(fieldsData)[k]
      ensures selectedDataType == old(selectedDataType) && saveStatus == old(saveStatus) && error == old(error)
    {
      fieldsData := fieldsData[index := ApplyEdit(fieldsData[index], e)];
    }

    /** `handleDragEnd`: a drop outside the list changes nothing. */
    method HandleDragEnd(source: nat, destination: Option<nat>)
      requires source < |fieldsData|
      requires destination.Some? ==> destination.value < |fieldsData|
      modifies this
      ensures destination.None? ==> fieldsData == old(fieldsData)
      ensures destination.Some? ==> fieldsData == Dragged(old(fieldsData), source, destination.value)
      ensures selectedDataType == old(selectedDataType) && saveStatus == old(saveStatus) && error == old(error)
    {
      if destination.None? {
        return;
      }
      var items := Move(fieldsData, source, destination.value);
      fieldsData := Renumber(items, WithOrder);
    }

    /** `handleSave`: the body sent for the selected data type, one object per row in table order. */
    method HandleSave() returns (dataType: string, body: seq<BaseApi.SettingInput>)
      modifies this
      ensures dataType == selectedDataType && body == MapSeq(fieldsData, SaveInput)
      ensures isSaving && saveStatus == HiddenStatus
      ensures fieldsData == old(fieldsData) && selectedDataType == old(selectedDataType)
    {
      isSaving := true;
      saveStatus := HiddenStatus;
      dataType := selectedDataType;
      body := MapSeq(fieldsData, SaveInput);
    }

    /**
     * The answer of the bulk save: the server's message in green, or its
     * message (else a fixed text) in red. A success refetches the rows.
     */
    method FinishSave(ok: bool, message: Option<string>)
      modifies this
      ensures !isSaving && saveStatus.show
      ensures ok ==> saveStatus == SaveStatus(OptOrElse(message, ""), "success", true)
      ensures !ok ==> saveStatus == SaveStatus(OptOrElse(message, BulkSaveFailed), "danger", true)
      ensures fieldsData == old(fieldsData) && selectedDataType == old(selectedDataType)
    {
      if ok {
        saveStatus := SaveStatus(OptOrElse(message, ""), "success", true);
      } else {
        saveStatus := SaveStatus(OptOrElse(message, BulkSaveFailed), "danger", true);
      }
      isSaving := false;
    }
  }
}
