/**
 * The admin mixin of the `base` application (backend/src/base/admin.py):
 * an admin class with a data type takes its list columns, search fields and
 * list filters from the display settings of that data type, ordered by
 * display order, and falls back to its own declarations when there are none.
 */
module BaseAdmin {
  import opened Common
  import opened BaseModels
  import opened ListOps

  /** The three flags a display setting can select a field by. */
  datatype Flag = IsListDisplay | IsSearchField | IsListFilter

  predicate HasFlag(s: ModelDisplaySetting, flag: Flag)
  {
    match flag
    case IsListDisplay => s.isListDisplay
    case IsSearchField => s.isSearchField
    case IsListFilter => s.isListFilter
  }

  function DisplayOrder(s: ModelDisplaySetting): int { s.displayOrder }

  function FieldName(s: ModelDisplaySetting): string { s.modelFieldName }

  /** The settings of the data type with the flag set, ordered by display order (the table's order on ties). */
  function Selected(table: seq<ModelDisplaySetting>, dataType: string, flag: Flag): (r: seq<ModelDisplaySetting>)
    ensures SortedBy(r, DisplayOrder)
    ensures forall s :: s in r <==> s in table && s.dataType == dataType && HasFlag(s, flag)
  {
    var f := Filter(table, (s: ModelDisplaySetting) => s.dataType == dataType && HasFlag(s, flag));
    SortBySorted(f, DisplayOrder);
    SortByMembers(f, DisplayOrder);
    SortBy(f, DisplayOrder)
  }

  /**
   * `get_dynamic_settings`: `None` without a data type or when no setting
   * selects a field, else the selected field names in display order.
   */
  function DynamicSettings(table: seq<ModelDisplaySetting>, dataType: Option<string>, flag: Flag): (r: Option<seq<string>>)
    ensures (dataType.None? || dataType.value == "") ==> r.None?
    ensures dataType.Some? && dataType.value != "" ==>
      (r.None? <==> forall s :: s in table ==> !(s.dataType == dataType.value && HasFlag(s, flag)))
    ensures r.Some? ==> r.value != [] && r.value == MapSeq(Selected(table, dataType.value, flag), FieldName)
  {
    if dataType.None? || dataType.value == "" then None
    else
      var sel := Selected(table, dataType.value, flag);
      if sel == [] then None
      else Some(MapSeq(sel, FieldName))
  }

  /** The fields are given in display order: a name before another has a display order not above it. */
  lemma DynamicSettingsOrdered(table: seq<ModelDisplaySetting>, dataType: Option<string>, flag: Flag, i: nat, j: nat)
    requires DynamicSettings(table, dataType, flag).Some?
    requires i < j < |DynamicSettings(table, dataType, flag).value|
    ensures var names := DynamicSettings(table, dataType, flag).value;
      exists a, b :: a in table && b in table && a.modelFieldName == names[i] && b.modelFieldName == names[j]
                     && a.displayOrder <= b.displayOrder
  {
    var sel := Selected(table, dataType.value, flag);
    assert sel[i] in sel && sel[j] in sel;
  }

  /**
   * The loop of `get_list_display`: every editable field not yet in the
   * list is appended, in editable order.
   */
  function AppendMissing(list: seq<string>, items: seq<string>): (r: seq<string>)
    decreases |items|
  {
    if items == [] then list
    else AppendMissing(if items[0] in list then list else list + [items[0]], items[1..])
  }

  /** The list keeps its own order at the front; everything in it comes from the list or the editable fields; every editable field is in it. */
  lemma {:induction false} AppendMissingMeaning(list: seq<string>, items: seq<string>)
    ensures |AppendMissing(list, items)| >= |list| && AppendMissing(list, items)[..|list|] == list
    ensures forall x :: x in AppendMissing(list, items) <==> x in list || x in items
    decreases |items|
  {
    if items != [] {
      var next := if items[0] in list then list else list + [items[0]];
      AppendMissingMeaning(next, items[1..]);
      assert AppendMissing(list, items)[..|next|][..|list|] == list;
      assert forall x :: x in items <==> x == items[0] || x in items[1..];
    }
  }

  /** No name occurs twice. */
  predicate Distinct(s: seq<string>)
  {
    forall i, j :: 0 <= i < j < |s| ==> s[i] != s[j]
  }

  /** No field is listed twice when the settings list none twice. */
  lemma {:induction false} AppendMissingNoDuplicates(list: seq<string>, items: seq<string>)
    requires Distinct(list)
    ensures Distinct(AppendMissing(list, items))
    decreases |items|
  {
    if items != [] {
      var next := if items[0] in list then list else list + [items[0]];
      assert Distinct(next) by {
        if items[0] !in list {
          forall i, j | 0 <= i < j < |next| ensures next[i] != next[j] {
            if j == |list| {
              assert next[i] == list[i];
            }
          }
        }
      }
      AppendMissingNoDuplicates(next, items[1..]);
    }
  }

  /** A list that already holds every editable field is returned unchanged. */
  lemma {:induction false} AppendMissingNothingMissing(list: seq<string>, items: seq<string>)
    requires forall k :: 0 <= k < |items| ==> items[k] in list
    ensures AppendMissing(list, items) == list
    decreases |items|
  {
    if items != [] {
      AppendMissingNothingMissing(list, items[1..]);
    }
  }

  /** What `get_list_display` gives as written: the columns, or the `AttributeError` of a method `ModelAdmin` does not have. */
  datatype ListDisplayOutcome = Columns(names: seq<string>) | NoSuchMethod(name: string)

  /**
   * `get_list_display` as written: with configured columns it first calls
   * `self.get_list_editable(request)`, which neither the mixin nor
   * `ModelAdmin` defines, so the call raises before any column is returned.
   */
  function ListDisplayAsWritten(table: seq<ModelDisplaySetting>, dataType: Option<string>, declared: seq<string>): (r: ListDisplayOutcome)
    ensures r.NoSuchMethod? <==> DynamicSettings(table, dataType, IsListDisplay).Some?
    ensures r.Columns? ==> r.names == declared
  {
    if DynamicSettings(table, dataType, IsListDisplay).Some? then NoSuchMethod("get_list_editable")
    else Columns(declared)
  }

  /** One list-display setting for the CSV mappings makes the CSV-mapping admin's change list fail. */
  lemma ConfiguredCsvMappingAdminRaises(declared: seq<string>)
    ensures ListDisplayAsWritten([DefaultDisplaySetting("csv_column_mapping", "data_type")], Some("csv_column_mapping"), declared)
      == NoSuchMethod("get_list_editable")
  {
    var table := [DefaultDisplaySetting("csv_column_mapping", "data_type")];
    assert table[0] in table;
  }

  /**
   * `get_list_display` as intended (corrected, see the findings): the
   * dynamic list completed by the admin's `list_editable`, or the admin's
   * own list.
   */
  method GetListDisplay(table: seq<ModelDisplaySetting>, dataType: Option<string>, editable: seq<string>, declared: seq<string>)
    returns (r: seq<string>)
    ensures DynamicSettings(table, dataType, IsListDisplay).None? ==> r == declared
    ensures DynamicSettings(table, dataType, IsListDisplay).Some? ==>
      r == AppendMissing(DynamicSettings(table, dataType, IsListDisplay).value, editable)
  {
    var dynamic := DynamicSettings(table, dataType, IsListDisplay);
    if dynamic.None? {
      return declared;
    }
    r := dynamic.value;
    var k := 0;
    while k < |editable|
      invariant 0 <= k <= |editable|
      invariant AppendMissing(r, editable[k..]) == AppendMissing(dynamic.value, editable)
    {
      assert editable[k..][1..] == editable[k + 1..];
      if editable[k] !in r {
        r := r + [editable[k]];
      }
      k := k + 1;
    }
  }

  /** With settings present, every editable field is shown, after the configured ones, which keep their order. */
  lemma ListDisplayCoversEditable(table: seq<ModelDisplaySetting>, dataType: Option<string>, editable: seq<string>)
    requires DynamicSettings(table, dataType, IsListDisplay).Some?
    ensures var d := DynamicSettings(table, dataType, IsListDisplay).value;
      var r := AppendMissing(d, editable);
      |d| <= |r| && r[..|d|] == d && (forall k :: 0 <= k < |editable| ==> editable[k] in r)
      && forall x :: x in r ==> x in d || x in editable
  {
    AppendMissingMeaning(DynamicSettings(table, dataType, IsListDisplay).value, editable);
  }

  /** `get_search_fields` / `get_list_filter`: the dynamic list unchanged, or the admin's own. */
  function DynamicOr(table: seq<ModelDisplaySetting>, dataType: Option<string>, flag: Flag, declared: seq<string>): (r: seq<string>)
    ensures DynamicSettings(table, dataType, flag).Some? ==> r == DynamicSettings(table, dataType, flag).value
    ensures DynamicSettings(table, dataType, flag).None? ==> r == declared
  {
    var d := DynamicSettings(table, dataType, flag);
    if d.Some? then d.value else declared
  }

  /** The admin classes that use the mixin, with their data type and editable fields. */
  const CsvMappingEditable: seq<string> := ["order", "is_update_key", "is_active"]

  /** The CSV-mapping admin always shows its three editable columns once any setting lists a column. */
  lemma CsvMappingAdminShowsEditable(table: seq<ModelDisplaySetting>)
    requires DynamicSettings(table, Some("csv_column_mapping"), IsListDisplay).Some?
    ensures forall k :: 0 <= k < |CsvMappingEditable| ==>
      CsvMappingEditable[k] in AppendMissing(DynamicSettings(table, Some("csv_column_mapping"), IsListDisplay).value, CsvMappingEditable)
  {
    ListDisplayCoversEditable(table, Some("csv_column_mapping"), CsvMappingEditable);
  }
}
