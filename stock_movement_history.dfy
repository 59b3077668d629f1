/**
 * The stock movement history page (frontend/src/pages/StockMovementHistory.tsx):
 * a set of selected movement types and text criteria become the active
 * search, which is sent as `search_movement_type` and `search_<key>`
 * parameters with the page number; the counter line, the page-number window
 * and the jump box follow the pagination the server returns.
 */
module StockMovementHistoryPage {
  import opened Common
  import opened Json
  import opened BaseModels
  import opened ListOps
  import opened SettingsColumns
  import opened PageLinks
  import InventoryModels
  import InventoryViews

  // ---------------------------------------------------------------------
  // Movement types
  // ---------------------------------------------------------------------

  /** An entry of `AVAILABLE_MOVEMENT_TYPES`: the type key and whether it starts selected. */
  datatype MovementType = MovementType(key: string, defaultSelected: bool)

  function TypeKeyOf(t: MovementType): string { t.key }
  function StartsSelected(t: MovementType): bool { t.defaultSelected }

  const Incoming := "incoming"
  const Outgoing := "outgoing"
  const Used := "used"
  const ProductionOutput := "PRODUCTION_OUTPUT"
  const ProductionReversal := "PRODUCTION_REVERSAL"
  const Adjustment := "adjustment"

  const AvailableMovementTypes: seq<MovementType> := [
    MovementType(Incoming, true), MovementType(Outgoing, true), MovementType(Used, true),
    MovementType(ProductionOutput, true), MovementType(ProductionReversal, true),
    MovementType(Adjustment, true)]

  /** `getDefaultSelectedTypes`: the keys of the types marked `default_selected`, in list order. */
  function DefaultSelectedTypes(): seq<string>
  {
    MapSeq(Filter(AvailableMovementTypes, StartsSelected), TypeKeyOf)
  }

  /** Every available movement type starts selected, in list order. */
  lemma DefaultSelectsAllTypes()
    ensures DefaultSelectedTypes() == MapSeq(AvailableMovementTypes, TypeKeyOf)
    ensures |DefaultSelectedTypes()| == 6
  {
    assert forall k :: 0 <= k < |AvailableMovementTypes| ==> AvailableMovementTypes[k].defaultSelected;
    FilterAll(AvailableMovementTypes, StartsSelected);
  }

  /** The type set as a JavaScript `Set` holds it: `delete` keeps the others in order, `add` appends. */
  function Toggle(types: seq<string>, key: string): (r: seq<string>)
  {
    if key in types then Filter(types, (t: string) => t != key) else types + [key]
  }

  /** A toggle flips the membership of its key and of no other type, and keeps the set free of repeats. */
  lemma ToggleMeaning(types: seq<string>, key: string)
    ensures forall t :: t in Toggle(types, key) <==> (if t == key then key !in types else t in types)
    ensures DistinctBy(types, Id) ==> DistinctBy(Toggle(types, key), Id)
  {
    var r := Toggle(types, key);
    if key in types {
      FilterMembersOf(types, key);
      if DistinctBy(types, Id) {
        FilterKeepsDistinct(types, (t: string) => t != key);
      }
    } else {
      assert r[|types|] == key;
    }
  }

  /** Toggling the same type twice selects the same types again. */
  lemma ToggleTwice(types: seq<string>, key: string)
    ensures forall t :: t in Toggle(Toggle(types, key), key) <==> t in types
  {
    ToggleMeaning(types, key);
    ToggleMeaning(Toggle(types, key), key);
  }

  function Id(t: string): string { t }

  lemma FilterMembersOf(types: seq<string>, key: string)
    ensures forall t :: t in Filter(types, (x: string) => x != key) <==> t in types && t != key
  {
    forall t | t in types && t != key ensures t in Filter(types, (x: string) => x != key) {
      var k :| 0 <= k < |types| && types[k] == t;
    }
  }

  /** Keeping some elements of a sequence free of repeats keeps it free of repeats. */
  lemma {:induction false} FilterKeepsDistinct(s: seq<string>, p: string -> bool)
    requires DistinctBy(s, Id)
    ensures DistinctBy(Filter(s, p), Id)
    decreases |s|
  {
    if s != [] {
      assert DistinctBy(s[1..], Id) by {
        forall i, j | 0 <= i < j < |s[1..]| ensures s[1..][i] != s[1..][j] {
          assert s[1..][i] == s[i + 1] && s[1..][j] == s[j + 1];
        }
      }
      FilterKeepsDistinct(s[1..], p);
      var rest := Filter(s[1..], p);
      assert s[0] !in rest by {
        forall k | 0 <= k < |s[1..]| ensures s[1..][k] != s[0] {
          assert s[1..][k] == s[k + 1];
        }
      }
      var r := Filter(s, p);
      if p(s[0]) {
        assert r == [s[0]] + rest;
        forall i, j | 0 <= i < j < |r| ensures r[i] != r[j] {
          if i == 0 {
            assert r[j] == rest[j - 1];
            assert rest[j - 1] in rest;
          } else {
            assert r[i] == rest[i - 1] && r[j] == rest[j - 1];
          }
        }
      } else {
        assert r == rest;
      }
    }
  }

  // ---------------------------------------------------------------------
  // Criteria and the active search
  // ---------------------------------------------------------------------

  function CriterionKey(p: Param): string { p.key }

  /** The six text criteria, all blank. */
  const BlankCriteria: seq<Param> := [
    Param(PartNumberKey, ""), Param(WarehouseKey, ""), Param(OperatorKey, ""),
    Param(DateFromKey, ""), Param(DateToKey, ""), Param(ReferenceKey, "")]

  const PartNumberKey := "part_number"
  const WarehouseKey := "warehouse"
  const OperatorKey := "operator"
  const DateFromKey := "movement_date_from"
  const DateToKey := "movement_date_to"
  const ReferenceKey := "reference_document"

  /** `handleSearchChange`: `{ ...prev, [name]: value }`. */
  function SetCriterion(criteria: seq<Param>, name: string, value: string): (r: seq<Param>)
  {
    Upsert(criteria, Param(name, value), CriterionKey)
  }

  /** An edit sets its criterion and leaves every other criterion where and as it was. */
  lemma SetCriterionMeaning(criteria: seq<Param>, name: string, value: string)
    requires DistinctBy(criteria, CriterionKey)
    ensures var r := SetCriterion(criteria, name, value);
      DistinctBy(r, CriterionKey) && Param(name, value) in r
      && (forall i :: 0 <= i < |criteria| && criteria[i].key != name ==> r[i] == criteria[i])
      && (forall p :: p in r ==> p in criteria || p == Param(name, value))
  {
    UpsertMeaning(criteria, Param(name, value), CriterionKey);
  }

  const TypeKey := "movement_type"

  /** A member of the active-search object: a text criterion, or the `movement_type` set. */
  datatype Entry = Text(key: string, text: string) | Types(types: seq<string>)

  function EntryKey(e: Entry): string { if e.Text? then e.key else TypeKey }
  function TextEntry(p: Param): Entry { Text(p.key, p.value) }

  /** `{ ...searchCriteria, movement_type: types }`. */
  function ActiveSearchOf(criteria: seq<Param>, types: seq<string>): seq<Entry>
  {
    Upsert(MapSeq(criteria, TextEntry), Types(types), EntryKey)
  }

  // ---------------------------------------------------------------------
  // The list query
  // ---------------------------------------------------------------------

  const PageSize := 25
  const PageSizeKey := "page_size"
  const TypeParamKey := "search_movement_type"
  const SearchPrefix := "search_"

  function TypeParam(t: string): Param { Param(TypeParamKey, t) }

  /**
   * What one member adds: each selected type for a non-empty type set, and
   * `search_<key>` for a non-blank criterion other than `movement_type`.
   */
  function EntryParams(e: Entry): seq<Param>
  {
    match e
    case Types(types) => if |types| > 0 then MapSeq(types, TypeParam) else []
    case Text(key, text) => if key != TypeKey && text != "" then [Param(SearchPrefix + key, text)] else []
  }

  /** `Object.entries(params).forEach(...)`: the members' parameters in the members' order. */
  function EntriesParams(es: seq<Entry>): seq<Param>
  {
    if es == [] then [] else EntriesParams(es[..|es| - 1]) + EntryParams(es[|es| - 1])
  }

  /** The data URL's query: `page`, `page_size`, then the active search. */
  function HistoryQuery(page: int, es: seq<Entry>): (ps: seq<Param>)
    ensures |ps| >= 2 && ps[0] == Param(PageKey, IntToString(page)) && ps[1] == Param(PageSizeKey, IntToString(PageSize))
  {
    [Param(PageKey, IntToString(page)), Param(PageSizeKey, IntToString(PageSize))] + EntriesParams(es)
  }

  lemma EntriesParamsSnoc(es: seq<Entry>, i: nat)
    requires i < |es|
    ensures EntriesParams(es[..i + 1]) == EntriesParams(es[..i]) + EntryParams(es[i])
  {
    assert es[..i + 1][..i] == es[..i];
  }

  /** The types a list of members selects. */
  function TypesIn(es: seq<Entry>): seq<string>
  {
    if es == [] then [] else TypesIn(es[..|es| - 1]) + (if es[|es| - 1].Types? then es[|es| - 1].types else [])
  }

  lemma SearchKeyOfType(key: string)
    ensures SearchPrefix + key == TypeParamKey <==> key == TypeKey
  {
    if SearchPrefix + key == TypeParamKey {
      assert key == (SearchPrefix + key)[|SearchPrefix|..];
    }
  }

  lemma {:induction false} TypeParamsValues(types: seq<string>)
    ensures ValuesOf(MapSeq(types, TypeParam), TypeParamKey) == types
    decreases |types|
  {
    if types != [] {
      var ps := MapSeq(types, TypeParam);
      assert ps[1..] == MapSeq(types[1..], TypeParam);
      TypeParamsValues(types[1..]);
      assert types == [types[0]] + types[1..];
    }
  }

  /** The server reads under `search_movement_type` exactly the types the members select. */
  lemma {:induction false} EntriesTypeValues(es: seq<Entry>)
    ensures ValuesOf(EntriesParams(es), TypeParamKey) == TypesIn(es)
    decreases |es|
  {
    if es != [] {
      var init, last := es[..|es| - 1], es[|es| - 1];
      EntriesTypeValues(init);
      ValuesOfAppend(EntriesParams(init), EntryParams(last), TypeParamKey);
      match last
      case Types(types) =>
        if |types| > 0 {
          TypeParamsValues(types);
        }
      case Text(key, text) =>
        SearchKeyOfType(key);
    }
  }

  /** When one member is the type set and all others are text, the members select exactly that set. */
  lemma {:induction false} TypesInSingle(es: seq<Entry>, p: nat)
    requires p < |es| && es[p].Types?
    requires forall j :: 0 <= j < |es| && j != p ==> es[j].Text?
    ensures TypesIn(es) == es[p].types
    decreases |es|
  {
    var init := es[..|es| - 1];
    if p == |es| - 1 {
      TypesInText(init);
    } else {
      TypesInSingle(init, p);
    }
  }

  lemma {:induction false} TypesInText(es: seq<Entry>)
    requires forall j :: 0 <= j < |es| ==> es[j].Text?
    ensures TypesIn(es) == []
    decreases |es|
  {
    if es != [] {
      TypesInText(es[..|es| - 1]);
    }
  }

  /** The search the page activates holds the type set once, and every other member is a criterion. */
  lemma ActiveSearchShape(criteria: seq<Param>, types: seq<string>)
    ensures var es := ActiveSearchOf(criteria, types);
      exists p :: 0 <= p < |es| && es[p] == Types(types) && forall j :: 0 <= j < |es| && j != p ==> es[j].Text?
  {
    var acc := MapSeq(criteria, TextEntry);
    var es := ActiveSearchOf(criteria, types);
    match IndexOf(acc, EntryKey, TypeKey)
    case Some(i) =>
      assert es == acc[i := Types(types)];
      assert es[i] == Types(types);
    case None =>
      assert es == acc + [Types(types)];
      assert es[|acc|] == Types(types);
  }

  /** Exactly the selected types are sent as `search_movement_type`, whatever the criteria hold. */
  lemma QuerySendsSelectedTypes(page: int, criteria: seq<Param>, types: seq<string>)
    ensures ValuesOf(HistoryQuery(page, ActiveSearchOf(criteria, types)), TypeParamKey) == types
  {
    var es := ActiveSearchOf(criteria, types);
    var base := [Param(PageKey, IntToString(page)), Param(PageSizeKey, IntToString(PageSize))];
    ValuesOfAppend(base, EntriesParams(es), TypeParamKey);
    EntriesTypeValues(es);
    ActiveSearchShape(criteria, types);
    var p :| 0 <= p < |es| && es[p] == Types(types) && forall j :: 0 <= j < |es| && j != p ==> es[j].Text?;
    TypesInSingle(es, p);
  }

  /** With types selected, the server lists only movements of a selected type. */
  lemma SelectedTypesFilterServer(page: int, criteria: seq<Param>, types: seq<string>, m: InventoryModels.StockMovement,
                                  readDate: string -> Option<int>)
    requires types != []
    requires InventoryViews.MovementListed(m, HistoryQuery(page, ActiveSearchOf(criteria, types)), readDate)
    ensures m.movementType in types
  {
    QuerySendsSelectedTypes(page, criteria, types);
  }

  /** With no type selected, no type filter is sent and the server lists movements of every type. */
  lemma NoTypeListsEveryType(page: int, criteria: seq<Param>, m: InventoryModels.StockMovement, t: string,
                              readDate: string -> Option<int>)
    ensures var q := HistoryQuery(page, ActiveSearchOf(criteria, []));
      InventoryViews.MovementListed(m, q, readDate) <==> InventoryViews.MovementListed(m.(movementType := t), q, readDate)
  {
    var q := HistoryQuery(page, ActiveSearchOf(criteria, []));
    QuerySendsSelectedTypes(page, criteria, []);
    ValuesOfEmpty(q, TypeParamKey);
    InventoryViews.NoTypeMeansEveryType(m, q, t, readDate);
  }

  /** Each parameter of a member is in the query of the members. */
  lemma {:induction false} EntryParamsIn(es: seq<Entry>, k: nat)
    requires k < |es|
    ensures forall x :: x in EntryParams(es[k]) ==> x in EntriesParams(es)
    decreases |es|
  {
    var init := es[..|es| - 1];
    if k < |es| - 1 {
      EntryParamsIn(init, k);
    }
  }

  /** Each parameter of the query of the members comes from one of them. */
  lemma {:induction false} EntriesParamsFrom(es: seq<Entry>)
    ensures forall x :: x in EntriesParams(es) ==> exists k :: 0 <= k < |es| && x in EntryParams(es[k])
    decreases |es|
  {
    if es != [] {
      var init := es[..|es| - 1];
      EntriesParamsFrom(init);
      forall x | x in EntriesParams(es) ensures exists k :: 0 <= k < |es| && x in EntryParams(es[k]) {
        if x in EntriesParams(init) {
          var k :| 0 <= k < |init| && x in EntryParams(init[k]);
          assert es[k] == init[k];
        } else {
          assert x in EntryParams(es[|es| - 1]);
        }
      }
    }
  }

  /** A non-blank criterion other than `movement_type` is sent as `search_<key>`. */
  lemma CriterionSent(page: int, criteria: seq<Param>, types: seq<string>, k: nat)
    requires DistinctBy(criteria, CriterionKey)
    requires k < |criteria| && criteria[k].key != TypeKey && criteria[k].value != ""
    ensures Param(SearchPrefix + criteria[k].key, criteria[k].value) in HistoryQuery(page, ActiveSearchOf(criteria, types))
  {
    var acc := MapSeq(criteria, TextEntry);
    assert DistinctBy(acc, EntryKey) by {
      forall i, j | 0 <= i < j < |acc| ensures EntryKey(acc[i]) != EntryKey(acc[j]) {
        assert EntryKey(acc[i]) == CriterionKey(criteria[i]) && EntryKey(acc[j]) == CriterionKey(criteria[j]);
      }
    }
    UpsertMeaning(acc, Types(types), EntryKey);
    var es := ActiveSearchOf(criteria, types);
    assert es[k] == Text(criteria[k].key, criteria[k].value);
    EntryParamsIn(es, k);
  }

  /** Each member of the active search is the type set or the criterion at the same place. */
  lemma ActiveSearchMembers(criteria: seq<Param>, types: seq<string>)
    ensures var es := ActiveSearchOf(criteria, types);
      forall k :: 0 <= k < |es| ==> es[k] == Types(types) || (k < |criteria| && es[k] == TextEntry(criteria[k]))
  {
    var acc := MapSeq(criteria, TextEntry);
    match IndexOf(acc, EntryKey, TypeKey)
    case Some(i) =>
      assert ActiveSearchOf(criteria, types) == acc[i := Types(types)];
    case None =>
      assert ActiveSearchOf(criteria, types) == acc + [Types(types)];
  }

  /** What one member of the active search can add to the query. */
  lemma EntryParamsOrigin(criteria: seq<Param>, types: seq<string>, k: nat, x: Param)
    requires k < |ActiveSearchOf(criteria, types)| && x in EntryParams(ActiveSearchOf(criteria, types)[k])
    ensures (x.key == TypeParamKey && x.value in types)
      || exists p :: p in criteria && p.key != TypeKey && p.value != "" && x == Param(SearchPrefix + p.key, p.value)
  {
    var e := ActiveSearchOf(criteria, types)[k];
    ActiveSearchMembers(criteria, types);
    if e == Types(types) {
      var j :| 0 <= j < |types| && x == MapSeq(types, TypeParam)[j];
    } else {
      assert criteria[k] in criteria;
    }
  }

  /** Nothing else is sent: each parameter is the page, the page size, a selected type or a non-blank criterion. */
  lemma QueryOnlyFromSearch(page: int, criteria: seq<Param>, types: seq<string>)
    ensures forall x :: x in HistoryQuery(page, ActiveSearchOf(criteria, types)) ==>
      x.key == PageKey || x.key == PageSizeKey || (x.key == TypeParamKey && x.value in types)
      || exists p :: p in criteria && p.key != TypeKey && p.value != "" && x == Param(SearchPrefix + p.key, p.value)
  {
    var es := ActiveSearchOf(criteria, types);
    var q := HistoryQuery(page, es);
    EntriesParamsFrom(es);
    forall x | x in q && x.key != PageKey && x.key != PageSizeKey
      ensures (x.key == TypeParamKey && x.value in types)
        || exists p :: p in criteria && p.key != TypeKey && p.value != "" && x == Param(SearchPrefix + p.key, p.value)
    {
      assert x in EntriesParams(es);
      var k :| 0 <= k < |es| && x in EntryParams(es[k]);
      EntryParamsOrigin(criteria, types, k, x);
    }
  }

  /** After a reset nothing but the page is sent, so the server lists every movement. */
  lemma ResetListsEverything(page: int, m: InventoryModels.StockMovement, readDate: string -> Option<int>)
    ensures InventoryViews.MovementListed(m, HistoryQuery(page, []), readDate)
  {
    var q := HistoryQuery(page, []);
    assert q == [Param(PageKey, IntToString(page)), Param(PageSizeKey, IntToString(PageSize))];
    ValuesOfEmpty(q, TypeParamKey);
  }

  // ---------------------------------------------------------------------
  // Counter, page window and page changes
  // ---------------------------------------------------------------------

  /** The counter line above the table. */
  datatype CountInfo = NoHistory | Showing(count: int, first: int, last: int, page: int, pages: int)

  /** `renderHistoryCountInfo`. */
  function HistoryCountInfo(count: int, currentPage: int, numPages: int): (info: CountInfo)
    ensures info.NoHistory? <==> count == 0
    ensures count > 0 && currentPage >= 1 && (currentPage - 1) * PageSize < count ==>
      info.Showing? && 1 <= info.first <= info.last <= count
      && info.first == (currentPage - 1) * PageSize + 1
      && info.last - info.first + 1 == Min(PageSize, count - (currentPage - 1) * PageSize)
  {
    if count == 0 then NoHistory
    else
      var first := (currentPage - 1) * PageSize + 1;
      Showing(count, first, Min(first + PageSize - 1, count), currentPage, numPages)
  }

  /** `PaginationControls`: hidden up to one page of rows, else the pages within 3 of the current one, and the jump box past 7 pages. */
  method PaginationControls(count: int, numPages: int, currentPage: int) returns (shown: bool, pages: seq<int>, jumpBox: bool)
    ensures shown <==> count > PageSize
    ensures shown ==> pages == PageRange(Max(1, currentPage - 3), Min(numPages, currentPage + 3)) && (jumpBox <==> numPages > 7)
    ensures !shown ==> pages == [] && !jumpBox
  {
    if count <= PageSize {
      return false, [], false;
    }
    var startPage := Max(1, currentPage - 3);
    var endPage := Min(numPages, currentPage + 3);
    pages := [];
    var i := startPage;
    while i <= endPage
      invariant startPage <= i <= Max(startPage, endPage + 1)
      invariant pages == PageRange(startPage, i - 1)
      decreases endPage - i
    {
      pages := pages + [i];
      i := i + 1;
    }
    shown := true;
    jumpBox := numPages > 7;
  }

  /** The window holds only real pages, at most seven, and the current page when it is real. */
  lemma PageWindowBounds(currentPage: int, numPages: int)
    ensures var w := PageRange(Max(1, currentPage - 3), Min(numPages, currentPage + 3));
      |w| <= 7 && (forall k :: 0 <= k < |w| ==> 1 <= w[k] <= numPages)
      && (1 <= currentPage <= numPages ==> currentPage in w)
  {
    var w := PageRange(Max(1, currentPage - 3), Min(numPages, currentPage + 3));
    if 1 <= currentPage <= numPages {
      assert w[currentPage - Max(1, currentPage - 3)] == currentPage;
    }
  }

  /** `handlePageChange(p)`: the page moves only to another real page. */
  function PageAfterChange(p: int, numPages: int, current: int): (r: int)
    ensures r == p <==> 1 <= p <= numPages || p == current
    ensures r != p ==> r == current
  {
    if 1 <= p <= numPages && p != current then p else current
  }

  /** `handleJumpPageGo`: the page the jump box text leads to; NaN and out-of-range pages stay put. */
  function PageAfterJump(text: string, numPages: int, current: int): (r: int)
    ensures r == current || 1 <= r <= numPages
    ensures r != current ==> ParseInt(text) == Some(r)
  {
    match ParseInt(text)
    case Some(p) => if 1 <= p <= numPages then PageAfterChange(p, numPages, current) else current
    case None => current
  }

  /** The jump box shows the current page again after a bad jump, and going there changes nothing. */
  lemma JumpToShownPageStays(numPages: int, current: int)
    ensures PageAfterJump(IntToString(current), numPages, current) == current
  {
    ParseIntOfIntToString(current);
  }

  // ---------------------------------------------------------------------
  // Cells and headers
  // ---------------------------------------------------------------------

  /** The row member a column shows: the type's display text, the operator's user name, or the field itself. */
  function CellSource(fieldName: string): (member: string)
    ensures fieldName != "movement_type" && fieldName != "operator" ==> member == fieldName
  {
    if fieldName == "movement_type" then "movement_type_display"
    else if fieldName == "operator" then "operator_username"
    else fieldName
  }

  /** `cellValue ?? ''`: a missing or null member shows as blank, anything else as it is. */
  function CellValue(item: Record, fieldName: string): (v: Value)
    ensures v != Null
    ensures CellSource(fieldName) in item && item[CellSource(fieldName)] != Null ==> v == item[CellSource(fieldName)]
  {
    var member := CellSource(fieldName);
    if member in item && item[member] != Null then item[member] else Str("")
  }

  /** `setting.display_name || setting.verbose_name`: no trimming on this page. */
  function HistoryHeader(c: Column): (h: string)
    ensures c.setting.displayName != "" ==> h == c.setting.displayName
    ensures c.setting.displayName == "" ==> h == c.verboseName
  {
    OrElse(c.setting.displayName, c.verboseName)
  }

  // ---------------------------------------------------------------------
  // Fetch answers
  // ---------------------------------------------------------------------

  /** The three answers of `Promise.all`; `None` where a response was not OK. */
  datatype Answers = Answers(
    settings: Option<seq<ModelDisplaySetting>>,
    fields: Option<seq<FieldLabel>>,
    data: Option<PageData>)

  datatype Fetched = Answered(answers: Answers) | FetchRejected

  const LoadError := "データの読み込みに失敗しました。"

  /** `count || 0`, `total_pages || 1`, `current_page || 1`, and the links as given. */
  function HistoryPaginationOf(d: PageData): (p: Pagination)
    ensures p.count == d.count && p.next == d.next && p.previous == d.previous
    ensures p.totalPages == (if d.totalPages == 0 then 1 else d.totalPages)
    ensures p.currentPage == (if d.currentPage == 0 then 1 else d.currentPage)
  {
    Pagination(d.count, d.next, d.previous, if d.currentPage == 0 then 1 else d.currentPage,
               if d.totalPages == 0 then 1 else d.totalPages)
  }

  // ---------------------------------------------------------------------
  // The page
  // ---------------------------------------------------------------------

  class Screen {
    var history: seq<Record>
    var pagination: Pagination
    var loading: bool
    var error: Option<string>
    var displaySettings: seq<Column>
    var searchFields: seq<Column>
    var searchCriteria: seq<Param>
    var selectedTypes: seq<string>
    var activeSearch: seq<Entry>
    var currentPage: int
    var jumpPage: string

    constructor ()
      ensures history == [] && pagination == InitialPagination && loading && error.None?
      ensures displaySettings == [] && searchFields == []
      ensures searchCriteria == BlankCriteria && selectedTypes == DefaultSelectedTypes()
      ensures activeSearch == [] && currentPage == 1 && jumpPage == "1"
    {
      history := [];
      pagination := InitialPagination;
      loading := true;
      error := None;
      displaySettings := [];
      searchFields := [];
      searchCriteria := BlankCriteria;
      selectedTypes := DefaultSelectedTypes();
      activeSearch := [];
      currentPage := 1;
      jumpPage := "1";
    }

    /**
     * `setCurrentPage(p)` with the effect that follows a change of page:
     * the jump box shows the new page.
     */
    method SetCurrentPage(p: int)
      modifies this
      ensures currentPage == p
      ensures jumpPage == if p != old(currentPage) then IntToString(p) else old(jumpPage)
      ensures unchanged(this`history, this`pagination, this`loading, this`error, this`displaySettings,
                        this`searchFields, this`searchCriteria, this`selectedTypes, this`activeSearch)
    {
      if p != currentPage {
        jumpPage := IntToString(p);
      }
      currentPage := p;
    }

    /** `handleSearchChange`. */
    method HandleSearchChange(name: string, value: string)
      modifies this
      ensures searchCriteria == SetCriterion(old(searchCriteria), name, value)
      ensures unchanged(this`history, this`pagination, this`loading, this`error, this`displaySettings,
                        this`searchFields, this`selectedTypes, this`activeSearch, this`currentPage, this`jumpPage)
    {
      searchCriteria := SetCriterion(searchCriteria, name, value);
    }

    /** `handleTypeToggle`: flips the type, goes to page 1 and searches with the current criteria at once. */
    method HandleTypeToggle(typeKey: string)
      modifies this
      ensures selectedTypes == Toggle(old(selectedTypes), typeKey)
      ensures currentPage == 1 && jumpPage == if old(currentPage) != 1 then "1" else old(jumpPage)
      ensures activeSearch == ActiveSearchOf(searchCriteria, selectedTypes)
      ensures unchanged(this`history, this`pagination, this`loading, this`error, this`displaySettings,
                        this`searchFields, this`searchCriteria)
    {
      var types := Toggle(selectedTypes, typeKey);
      selectedTypes := types;
      SetCurrentPage(1);
      activeSearch := ActiveSearchOf(searchCriteria, types);
    }

    /** `handleSearch`: page 1 and the criteria and types as they stand. */
    method HandleSearch()
      modifies this
      ensures currentPage == 1 && jumpPage == if old(currentPage) != 1 then "1" else old(jumpPage)
      ensures activeSearch == ActiveSearchOf(searchCriteria, selectedTypes)
      ensures unchanged(this`history, this`pagination, this`loading, this`error, this`displaySettings,
                        this`searchFields, this`searchCriteria, this`selectedTypes)
    {
      SetCurrentPage(1);
      activeSearch := ActiveSearchOf(searchCriteria, selectedTypes);
    }

    /** `handleReset`: blank criteria, the default types, page 1 and no active search. */
    method HandleReset()
      modifies this
      ensures searchCriteria == BlankCriteria && selectedTypes == DefaultSelectedTypes()
      ensures currentPage == 1 && jumpPage == if old(currentPage) != 1 then "1" else old(jumpPage)
      ensures activeSearch == []
      ensures unchanged(this`history, this`pagination, this`loading, this`error, this`displaySettings, this`searchFields)
    {
      searchCriteria := BlankCriteria;
      selectedTypes := DefaultSelectedTypes();
      SetCurrentPage(1);
      activeSearch := [];
    }

    /** `handlePageChange`. */
    method HandlePageChange(p: int)
      modifies this
      ensures currentPage == PageAfterChange(p, pagination.totalPages, old(currentPage))
      ensures jumpPage == if currentPage != old(currentPage) then IntToString(currentPage) else old(jumpPage)
      ensures unchanged(this`history, this`pagination, this`loading, this`error, this`displaySettings,
                        this`searchFields, this`searchCriteria, this`selectedTypes, this`activeSearch)
    {
      if p >= 1 && p <= pagination.totalPages && p != currentPage {
        SetCurrentPage(p);
      }
    }

    /** `handleJumpPageChange`. */
    method HandleJumpPageChange(text: string)
      modifies this
      ensures jumpPage == text
      ensures unchanged(this`history, this`pagination, this`loading, this`error, this`displaySettings,
                        this`searchFields, this`searchCriteria, this`selectedTypes, this`activeSearch, this`currentPage)
    {
      jumpPage := text;
    }

    /** `handleJumpPageGo`: a real page in the box is gone to; anything else puts the current page back in the box. */
    method HandleJumpPageGo()
      modifies this
      ensures currentPage == PageAfterJump(old(jumpPage), pagination.totalPages, old(currentPage))
      ensures currentPage == old(currentPage) ==>
        jumpPage == (if ParseInt(old(jumpPage)).Some? && 1 <= ParseInt(old(jumpPage)).value <= pagination.totalPages
                     then old(jumpPage) else IntToString(old(currentPage)))
      ensures currentPage != old(currentPage) ==> jumpPage == IntToString(currentPage)
      ensures unchanged(this`history, this`pagination, this`loading, this`error, this`displaySettings,
                        this`searchFields, this`searchCriteria, this`selectedTypes, this`activeSearch)
    {
      var page := ParseInt(jumpPage);
      if page.Some? && page.value >= 1 && page.value <= pagination.totalPages {
        HandlePageChange(page.value);
      } else {
        jumpPage := IntToString(currentPage);
      }
    }

    /**
     * `fetchHistory(currentPage, activeSearch)`: the data query, then the
     * answers. Columns are rebuilt when both settings answers are OK and kept
     * otherwise; the rows and pagination are replaced when the data answer
     * is OK, and the error is set otherwise.
     */
    method FetchHistory(answer: Fetched) returns (query: seq<Param>)
      modifies this
      ensures query == HistoryQuery(currentPage, activeSearch)
      ensures !loading
      ensures answer.FetchRejected? ==>
        error == Some(LoadError) && unchanged(this`history, this`pagination, this`displaySettings, this`searchFields)
      ensures answer.Answered? && answer.answers.settings.Some? && answer.answers.fields.Some? ==>
        var cs := CombinedSettings(answer.answers.fields.value, answer.answers.settings.value);
        displaySettings == VisibleColumns(cs) && searchFields == SearchableFields(cs)
      ensures answer.Answered? && (answer.answers.settings.None? || answer.answers.fields.None?) ==>
        unchanged(this`displaySettings, this`searchFields)
      ensures answer.Answered? && answer.answers.data.None? ==>
        error == Some(LoadError) && unchanged(this`history, this`pagination)
      ensures answer.Answered? && answer.answers.data.Some? ==>
        error.None? && history == answer.answers.data.value.results
        && pagination == HistoryPaginationOf(answer.answers.data.value)
      ensures unchanged(this`searchCriteria, this`selectedTypes, this`activeSearch, this`currentPage, this`jumpPage)
    {
      query := BuildQuery(currentPage, activeSearch);
      if answer.FetchRejected? {
        error := Some(LoadError);
      } else {
        var a := answer.answers;
        var display, search := displaySettings, searchFields;
        if a.settings.Some? && a.fields.Some? {
          display, search := BuildColumns(a.settings.value, a.fields.value);
        }
        var rows := if a.data.Some? then Some(a.data.value.results) else None;
        var page := if a.data.Some? then HistoryPaginationOf(a.data.value) else pagination;
        Show(display, search, rows, page);
      }
      loading := false;
    }

    /** The columns and search inputs of two OK settings answers. */
    static method BuildColumns(settings: seq<ModelDisplaySetting>, fields: seq<FieldLabel>) returns (display: seq<Column>, search: seq<Column>)
      ensures display == VisibleColumns(CombinedSettings(fields, settings))
      ensures search == SearchableFields(CombinedSettings(fields, settings))
    {
      var cs := CombinedSettings(fields, settings);
      display := VisibleColumns(cs);
      search := SearchableFields(cs);
    }

    /** Puts the columns on screen, then the rows and pagination, or the error when there are no rows. */
    method Show(display: seq<Column>, search: seq<Column>, rows: Option<seq<Record>>, page: Pagination)
      modifies this
      ensures displaySettings == display && searchFields == search
      ensures rows.None? ==> error == Some(LoadError) && unchanged(this`history, this`pagination)
      ensures rows.Some? ==> error.None? && history == rows.value && pagination == page
      ensures unchanged(this`loading, this`searchCriteria, this`selectedTypes, this`activeSearch, this`currentPage, this`jumpPage)
    {
      displaySettings, searchFields := display, search;
      if rows.None? {
        error := Some(LoadError);
      } else {
        error := None;
        history := rows.value;
        pagination := page;
      }
    }

    /** The URL parameters appended one by one. */
    static method BuildQuery(page: int, es: seq<Entry>) returns (ps: seq<Param>)
      ensures ps == HistoryQuery(page, es)
    {
      var base := [Param(PageKey, IntToString(page)), Param(PageSizeKey, IntToString(PageSize))];
      ps := base;
      var i := 0;
      while i < |es|
        invariant 0 <= i <= |es|
        invariant ps == base + EntriesParams(es[..i])
      {
        var added := AppendEntry(ps, es[i]);
        EntriesParamsSnoc(es, i);
        ps := added;
        i := i + 1;
      }
      assert es[..i] == es;
    }

    /** One member's parameters: the selected types by an inner loop, or one criterion. */
    static method AppendEntry(before: seq<Param>, e: Entry) returns (ps: seq<Param>)
      ensures ps == before + EntryParams(e)
    {
      ps := before;
      match e
      case Types(types) =>
        if |types| > 0 {
          var j := 0;
          while j < |types|
            invariant 0 <= j <= |types|
            invariant |ps| == |before| + j && ps[..|before|] == before
            invariant forall k :: 0 <= k < j ==> ps[|before| + k] == TypeParam(types[k])
          {
            ps := ps + [TypeParam(types[j])];
            j := j + 1;
          }
          assert ps == before + MapSeq(types, TypeParam);
        }
      case Text(key, text) =>
        if key != TypeKey && text != "" {
          ps := ps + [Param(SearchPrefix + key, text)];
        }
    }
  }
}
