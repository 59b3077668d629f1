/**
 * The CSV mapping screen (frontend/src/pages/CsvMappingSettings.tsx): one
 * row per model field of the chosen data type, active exactly when a
 * mapping is saved for it, reordered by drag and drop and sent whole to the
 * bulk save, which keeps the active rows with a header.
 */
module CsvMappingSettingsPage {
  import opened Common
  import opened Json
  import opened BaseModels
  import opened ListOps
  import BaseApi

  const ScreenDataTypes: seq<string> := ["item", "supplier", "warehouse", "purchase_order", "production_plan", "parts_used"]

  /** One row of the table. */
  datatype Row = Row(
    modelFieldName: string,
    verboseName: string,
    helpText: string,
    csvHeader: string,
    customDisplayName: string,
    order: int,
    isUpdateKey: bool,
    isActive: bool)

  function RowName(r: Row): string { r.modelFieldName }
  function RowOrder(r: Row): int { r.order }
  function WithOrder(r: Row, n: int): Row { r.(order := n) }
  function MappingName(m: CsvColumnMapping): string { m.modelFieldName }
  function DisplayName(s: ModelDisplaySetting): string { s.modelFieldName }

  /** `mappings.find(m => m.model_field_name === name)`. */
  function MappingFor(mappings: seq<CsvColumnMapping>, name: string): (r: Option<CsvColumnMapping>)
    ensures r.None? <==> forall k :: 0 <= k < |mappings| ==> mappings[k].modelFieldName != name
    ensures r.Some? ==> r.value in mappings && r.value.modelFieldName == name
  {
    match IndexOf(mappings, MappingName, name)
    case None => None
    case Some(i) => Some(mappings[i])
  }

  /** `displaySettings.find(s => s.model_field_name === name)`. */
  function DisplaySettingFor(settings: seq<ModelDisplaySetting>, name: string): (r: Option<ModelDisplaySetting>)
    ensures r.None? <==> forall k :: 0 <= k < |settings| ==> settings[k].modelFieldName != name
    ensures r.Some? ==> r.value in settings && r.value.modelFieldName == name
  {
    match IndexOf(settings, DisplayName, name)
    case None => None
    case Some(i) => Some(settings[i])
  }

  /**
   * The row of the field at position `index` of the non-`id` fields. It is
   * active exactly when a mapping exists; header and update key come from
   * the mapping; the order is the mapping's when it is not 0
   * (`order || (index + 1) * 10`); the custom name comes from the display
   * setting.
   */
  function RowFor(f: ModelField, index: nat, mappings: seq<CsvColumnMapping>, settings: seq<ModelDisplaySetting>): (r: Row)
    ensures r.modelFieldName == f.name && r.verboseName == f.verboseName && r.helpText == f.helpText
    ensures r.isActive <==> MappingFor(mappings, f.name).Some?
    ensures MappingFor(mappings, f.name).None? ==>
      r.csvHeader == "" && !r.isUpdateKey && r.order == (index + 1) * 10
    ensures MappingFor(mappings, f.name).Some? ==>
      var m := MappingFor(mappings, f.name).value;
      r.csvHeader == m.csvHeader && r.isUpdateKey == m.isUpdateKey
      && r.order == (if m.order != 0 then m.order else (index + 1) * 10)
    ensures r.customDisplayName == (if DisplaySettingFor(settings, f.name).Some? then DisplaySettingFor(settings, f.name).value.displayName else "")
    ensures r.order > 0
  {
    var custom := match DisplaySettingFor(settings, f.name)
      case None => ""
      case Some(s) => s.displayName;
    match MappingFor(mappings, f.name)
    case None => Row(f.name, f.verboseName, f.helpText, "", custom, (index + 1) * 10, false, false)
    case Some(m) =>
      Row(f.name, f.verboseName, f.helpText, m.csvHeader, custom,
          if m.order != 0 then m.order else (index + 1) * 10, m.isUpdateKey, true)
  }

  predicate NotId(f: ModelField) { f.name != "id" }

  function FieldRows(fields: seq<ModelField>, mappings: seq<CsvColumnMapping>, settings: seq<ModelDisplaySetting>): (rows: seq<Row>)
    ensures |rows| == |Filter(fields, NotId)|
    ensures forall i :: 0 <= i < |rows| ==> rows[i] == RowFor(Filter(fields, NotId)[i], i, mappings, settings)
  {
    var fs := Filter(fields, NotId);
    seq(|fs|, i requires 0 <= i < |fs| => RowFor(fs[i], i, mappings, settings))
  }

  /** `fetchAllData`: the field rows sorted by order (stable). */
  function BuildRows(fields: seq<ModelField>, mappings: seq<CsvColumnMapping>, settings: seq<ModelDisplaySetting>): seq<Row>
  {
    SortBy(FieldRows(fields, mappings, settings), RowOrder)
  }

  /**
   * One row per model field except `id`, in order; every order is
   * positive, since a stored 0 is replaced by the position default.
   */
  lemma BuildRowsMeaning(fields: seq<ModelField>, mappings: seq<CsvColumnMapping>, settings: seq<ModelDisplaySetting>)
    ensures var rows := BuildRows(fields, mappings, settings);
      |rows| == |Filter(fields, NotId)|
      && multiset(rows) == multiset(FieldRows(fields, mappings, settings))
      && SortedBy(rows, RowOrder)
      && (forall r :: r in rows ==> r.modelFieldName != "id" && r.order > 0)
      && (forall r :: r in rows ==> (r.isActive <==> MappingFor(mappings, r.modelFieldName).Some?))
  {
    var fs := Filter(fields, NotId);
    var unsorted := FieldRows(fields, mappings, settings);
    SortBySorted(unsorted, RowOrder);
    SortByMembers(unsorted, RowOrder);
    forall r | r in BuildRows(fields, mappings, settings)
      ensures r.modelFieldName != "id" && r.order > 0
      ensures r.isActive <==> MappingFor(mappings, r.modelFieldName).Some?
    {
      var i :| 0 <= i < |unsorted| && unsorted[i] == r;
      assert fs[i] in fs;
    }
  }

  /** A saved mapping with order 0 shows the default of its field's position instead. */
  lemma StoredZeroOrderReplaced(fields: seq<ModelField>, mappings: seq<CsvColumnMapping>, settings: seq<ModelDisplaySetting>, i: nat)
    requires i < |Filter(fields, NotId)|
    requires var m := MappingFor(mappings, Filter(fields, NotId)[i].name); m.Some? && m.value.order == 0
    ensures FieldRows(fields, mappings, settings)[i].order == (i + 1) * 10
    ensures FieldRows(fields, mappings, settings)[i].isActive
  {
  }

  /** One input of a row: the active switch, the header text box, or the update-key checkbox. */
  datatype Edit = ActiveSwitch(checked: bool) | HeaderInput(value: string) | UpdateKeyCheck(checked: bool)

  function ApplyEdit(r: Row, e: Edit): (n: Row)
    ensures n.modelFieldName == r.modelFieldName && n.order == r.order && n.customDisplayName == r.customDisplayName
    ensures n.isActive == (if e.ActiveSwitch? then e.checked else r.isActive)
    ensures n.csvHeader == (if e.HeaderInput? then e.value else r.csvHeader)
    ensures n.isUpdateKey == (if e.UpdateKeyCheck? then e.checked else r.isUpdateKey)
  {
    match e
    case ActiveSwitch(c) => r.(isActive := c)
    case HeaderInput(v) => r.(csvHeader := v)
    case UpdateKeyCheck(c) => r.(isUpdateKey := c)
  }

  /** The drag-end result: the row moved, then orders renumbered 10, 20, 30, … in list order. */
  function Dragged(rows: seq<Row>, from: nat, to: nat): seq<Row>
    requires from < |rows| && to < |rows|
  {
    Renumber(Move(rows, from, to), WithOrder)
  }

  /** After a drag the orders are 10, 20, 30, … so a reload sorts the rows into the same order. */
  lemma DraggedMeaning(rows: seq<Row>, from: nat, to: nat)
    requires from < |rows| && to < |rows|
    ensures var d := Dragged(rows, from, to);
      |d| == |rows| && d[to] == WithOrder(rows[from], (to + 1) * 10)
      && (forall k :: 0 <= k < |d| ==> d[k].order == (k + 1) * 10)
      && SortBy(d, RowOrder) == d
      && multiset(Move(rows, from, to)) == multiset(rows)
      && RemoveAt(Move(rows, from, to), to) == RemoveAt(rows, from)
  {
    MovePermutes(rows, from, to);
    MoveKeepsOthersInOrder(rows, from, to);
    RenumberSorted(Move(rows, from, to), WithOrder, RowOrder);
  }

  /** The save body object of a row: every row is sent, `Number(order) || 0` as the order. */
  function SaveInput(r: Row): (d: BaseApi.MappingInput)
    ensures d.modelFieldName == Some(r.modelFieldName) && d.csvHeader == Some(r.csvHeader)
    ensures d.order == Some(r.order) && d.isUpdateKey == Some(r.isUpdateKey) && d.isActive == Some(r.isActive)
  {
    BaseApi.MappingInput(Some(r.modelFieldName), Some(r.csvHeader), Some(r.order), Some(r.isUpdateKey), Some(r.isActive))
  }

  /** The server keeps exactly the rows that are active and whose header is not blank. */
  lemma ServerKeepsActiveWithHeader(r: Row)
    ensures BaseApi.KeptMapping(SaveInput(r)) <==> r.isActive && Strip(r.csvHeader) != ""
  {
  }

  /**
   * With no error, the saved mappings are those of the active rows with a
   * header, in table order, each active and of the chosen type.
   */
  lemma SavedMappings(rows: seq<Row>, dataType: string)
    requires BaseApi.MappingErrors(MapSeq(rows, SaveInput), dataType) == []
    ensures var body := MapSeq(rows, SaveInput);
      var saved := BaseApi.StagedMappings(body, dataType);
      |saved| == |Filter(body, BaseApi.KeptMapping)|
      && forall e :: 0 <= e < |saved| ==> saved[e].dataType == dataType && saved[e].isActive
  {
    var body := MapSeq(rows, SaveInput);
    BaseApi.StagedMappingsCount(body, dataType);
    forall e | 0 <= e < |BaseApi.StagedMappings(body, dataType)|
      ensures BaseApi.StagedMappings(body, dataType)[e].dataType == dataType
      ensures BaseApi.StagedMappings(body, dataType)[e].isActive
    {
      BaseApi.StagedMappingsShape(body, dataType, e);
    }
  }

  datatype Fetched =
    | Loaded(mappings: seq<CsvColumnMapping>, fields: seq<ModelField>, settings: seq<ModelDisplaySetting>)
    | LoadFailed(message: string)

  class Screen {
    var combinedData: seq<Row>
    var selectedDataType: string
    var loading: bool
    var error: Option<string>
    var saveStatus: SaveStatus

    constructor ()
      ensures combinedData == [] && selectedDataType == ScreenDataTypes[0]
      ensures !loading && error.None? && saveStatus == HiddenStatus
    {
      combinedData := [];
      selectedDataType := ScreenDataTypes[0];
      loading := false;
      error := None;
      saveStatus := HiddenStatus;
    }

    /** `fetchAllData`: rows rebuilt from the three lists, or the failure's text. */
    method FetchAllData(answer: Fetched)
      modifies this
      ensures !loading && saveStatus == old(saveStatus).(show := false)
      ensures answer.Loaded? ==> combinedData == BuildRows(answer.fields, answer.mappings, answer.settings) && error.None?
      ensures answer.LoadFailed? ==> combinedData == old(combinedData) && error == Some(answer.message)
      ensures selectedDataType == old(selectedDataType)
    {
      loading := true;
      error := None;
      saveStatus := saveStatus.(show := false);
      match answer {
        case Loaded(mappings, fields, settings) =>
          combinedData := BuildRows(fields, mappings, settings);
        case LoadFailed(m) =>
          error := Some(m);
      }
      loading := false;
    }

    /** `handleInputChange`: only the edited field of the row at `index` changes. */
    method HandleInputChange(index: nat, e: Edit)
      requires index < |combinedData|
      modifies this
      ensures |combinedData| == |old(combinedData)|
      ensures combinedData[index] == ApplyEdit(old(combinedData)[index], e)
      ensures forall k :: 0 <= k < |combinedData| && k != index ==> combinedData[k] == old(combinedData)[k]
      ensures selectedDataType == old(selectedDataType) && saveStatus == old(saveStatus) && error == old(error)
    {
      combinedData := combinedData[index := ApplyEdit(combinedData[index], e)];
    }

    /** `handleDragEnd`: a drop outside the list changes nothing. */
    method HandleDragEnd(source: nat, destination: Option<nat>)
      requires source < |combinedData|
      requires destination.Some? ==> destination.value < |combinedData|
      modifies this
      ensures destination.None? ==> combinedData == old(combinedData)
      ensures destination.Some? ==> combinedData == Dragged(old(combinedData), source, destination.value)
      ensures selectedDataType == old(selectedDataType) && saveStatus == old(saveStatus) && error == old(error)
    {
      if destination.None? {
        return;
      }
      var items := Move(combinedData, source, destination.value);
      combinedData := Renumber(items, WithOrder);
    }

    /** `handleSave`: every row is sent for the selected data type, in table order. */
    method HandleSave() returns (dataType: string, body: seq<BaseApi.MappingInput>)
      modifies this
      ensures dataType == selectedDataType && body == MapSeq(combinedData, SaveInput)
      ensures loading && saveStatus == HiddenStatus
      ensures combinedData == old(combinedData) && selectedDataType == old(selectedDataType)
    {
      loading := true;
      saveStatus := HiddenStatus;
      dataType := selectedDataType;
      body := MapSeq(combinedData, SaveInput);
    }

    /** The answer of the bulk save: its message in green, or its message (else a fixed text) in red. */
    method FinishSave(ok: bool, message: Option<string>)
      modifies this
      ensures !loading && saveStatus.show
      ensures ok ==> saveStatus == SaveStatus(OptOrElse(message, ""), "success", true)
      ensures !ok ==> saveStatus == SaveStatus(OptOrElse(message, BulkSaveFailed), "danger", true)
      ensures combinedData == old(combinedData) && selectedDataType == old(selectedDataType)
    {
      if ok {
        saveStatus := SaveStatus(OptOrElse(message, ""), "success", true);
      } else {
        saveStatus := SaveStatus(OptOrElse(message, BulkSaveFailed), "danger", true);
      }
      loading := false;
    }
  }
}
