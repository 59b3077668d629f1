/**
 * The display-settings pipeline the desktop list pages share
 * (frontend/src/pages/GoodsReceipt.tsx, frontend/src/pages/InventoryInquiry.tsx):
 * the saved settings of a data type, each given its field's verbose name,
 * become the table columns (the listed ones, by display order) and the
 * search inputs (the searchable ones, by search order); a column header is
 * the trimmed custom name, else the verbose name, else the field name.
 */
module SettingsColumns {
  import opened Common
  import opened BaseModels
  import opened ListOps

  /** A setting as a list page holds it, with the verbose name and, where the page adds one, the field type. */
  datatype Column = Column(setting: ModelDisplaySetting, verboseName: string, fieldType: Option<string>)

  function ColumnName(c: Column): string { c.setting.modelFieldName }
  function DisplayOrderOf(c: Column): int { c.setting.displayOrder }
  function SearchOrderOf(c: Column): int { c.setting.searchOrder }
  function Listed(c: Column): bool { c.setting.isListDisplay }
  function Searched(c: Column): bool { c.setting.isSearchField }

  /** A verbose name that is missing or "" falls back to the field name (`map.get(name) || name`). */
  function VerboseOr(verbose: Option<string>, name: string): (r: string)
    ensures verbose.Some? && verbose.value != "" ==> r == verbose.value
    ensures (verbose.None? || verbose.value == "") ==> r == name
  {
    OptOrElse(verbose, name)
  }

  /** `.filter(s => s.is_list_display).sort((a, b) => a.display_order - b.display_order)`. */
  function VisibleColumns(cs: seq<Column>): (r: seq<Column>)
  {
    SortBy(Filter(cs, Listed), DisplayOrderOf)
  }

  /** `.filter(s => s.is_search_field).sort((a, b) => a.search_order - b.search_order)`. */
  function SearchableFields(cs: seq<Column>): (r: seq<Column>)
  {
    SortBy(Filter(cs, Searched), SearchOrderOf)
  }

  /** The columns are exactly the listed settings, each once per occurrence, in display order. */
  lemma VisibleColumnsMeaning(cs: seq<Column>)
    ensures var r := VisibleColumns(cs);
      SortedBy(r, DisplayOrderOf)
      && multiset(r) == multiset(Filter(cs, Listed))
      && forall c :: c in r <==> c in cs && c.setting.isListDisplay
  {
    SortBySorted(Filter(cs, Listed), DisplayOrderOf);
    SortByMembers(Filter(cs, Listed), DisplayOrderOf);
    FilterMembers(cs, Listed);
  }

  /** The search inputs are exactly the searchable settings, in search order. */
  lemma SearchableFieldsMeaning(cs: seq<Column>)
    ensures var r := SearchableFields(cs);
      SortedBy(r, SearchOrderOf)
      && multiset(r) == multiset(Filter(cs, Searched))
      && forall c :: c in r <==> c in cs && c.setting.isSearchField
  {
    SortBySorted(Filter(cs, Searched), SearchOrderOf);
    SortByMembers(Filter(cs, Searched), SearchOrderOf);
    FilterMembers(cs, Searched);
  }

  /** An element is kept by a filter exactly when it is in the list and satisfies the predicate. */
  lemma FilterMembers(cs: seq<Column>, p: Column -> bool)
    ensures forall c :: c in Filter(cs, p) <==> c in cs && p(c)
  {
    forall c | c in cs && p(c) ensures c in Filter(cs, p) {
      var k :| 0 <= k < |cs| && cs[k] == c;
    }
  }

  /** Columns whose settings are already in display order come out in the order given. */
  lemma VisibleColumnsOfOrdered(cs: seq<Column>)
    requires forall c :: c in cs ==> c.setting.isListDisplay
    requires SortedBy(cs, DisplayOrderOf)
    ensures VisibleColumns(cs) == cs
  {
    FilterAll(cs, Listed);
    SortByOfSorted(cs, DisplayOrderOf);
  }

  /** `(setting.display_name || '').trim() || setting.verbose_name || setting.model_field_name`. */
  function HeaderText(c: Column): (h: string)
    ensures Strip(c.setting.displayName) != "" ==> h == Strip(c.setting.displayName)
    ensures Strip(c.setting.displayName) == "" ==> h == OrElse(c.verboseName, c.setting.modelFieldName)
  {
    OrElse(Strip(c.setting.displayName), OrElse(c.verboseName, c.setting.modelFieldName))
  }

  /** A custom name of spaces only does not hide the verbose name, and no header of a named field is blank. */
  lemma HeaderTextNeverBlank(c: Column)
    requires c.setting.modelFieldName != ""
    ensures HeaderText(c) != ""
    ensures AllSpace(c.setting.displayName) ==> HeaderText(c) == OrElse(c.verboseName, c.setting.modelFieldName)
  {
    StripEmptyIff(c.setting.displayName);
  }

  /** The default header row is shown while loading and when no column is configured. */
  predicate DefaultHeaders(isLoading: bool, columns: seq<Column>)
  {
    isLoading || columns == []
  }

  /** An entry of the model-fields answer: a field name and its verbose name. */
  datatype FieldLabel = FieldLabel(name: string, verboseName: string)

  function LabelName(f: FieldLabel): string { f.name }

  /** `new Map(fields.map(f => [f.name, f.verbose_name]))`: one entry per name, the last one given. */
  function VerboseNames(fields: seq<FieldLabel>): seq<FieldLabel>
  {
    UpsertAll([], fields, LabelName)
  }

  /** `verboseNameMap.get(name)`. */
  function VerboseFor(names: seq<FieldLabel>, name: string): (r: Option<string>)
    ensures r.None? <==> forall k :: 0 <= k < |names| ==> names[k].name != name
  {
    match IndexOf(names, LabelName, name)
    case Some(i) => Some(names[i].verboseName)
    case None => None
  }

  /** The last verbose name given for a field is the one shown. */
  lemma LastVerboseNameWins(fields: seq<FieldLabel>, k: nat)
    requires k < |fields|
    requires forall j :: k < j < |fields| ==> fields[j].name != fields[k].name
    ensures VerboseFor(VerboseNames(fields), fields[k].name) == Some(fields[k].verboseName)
  {
    var m := VerboseNames(fields);
    UpsertAllMeaning([], fields, LabelName);
    var p :| 0 <= p < |m| && m[p] == fields[k];
    IndexOfDistinct(m, LabelName, p);
  }

  /** A setting with `verbose_name: map.get(name) || name` and no field type. */
  function ColumnFor(names: seq<FieldLabel>, s: ModelDisplaySetting): (c: Column)
    ensures c.setting == s && c.fieldType.None?
    ensures c.verboseName == VerboseOr(VerboseFor(names, s.modelFieldName), s.modelFieldName)
  {
    Column(s, VerboseOr(VerboseFor(names, s.modelFieldName), s.modelFieldName), None)
  }

  /** `settings.map(...)`: every setting, in the order given. */
  function CombinedSettings(fields: seq<FieldLabel>, settings: seq<ModelDisplaySetting>): (cs: seq<Column>)
    ensures |cs| == |settings|
  {
    var names := VerboseNames(fields);
    seq(|settings|, k requires 0 <= k < |settings| => ColumnFor(names, settings[k]))
  }
}
