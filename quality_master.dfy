/**
 * The inspection-item master page (frontend/src/pages/QualityMasterCreation.tsx):
 * the list of inspection items, and a modal that edits one item with its
 * measurement details. Detail rows can be added, removed, edited and
 * reordered by drag and drop; on save they are numbered by position, and
 * the serializer's nested errors are flattened into one key per row and
 * field.
 */
module QualityMasterPage {
  import opened Common
  import opened Json
  import opened ListOps
  import QualityModels

  // ---------------------------------------------------------------------
  // Choices
  // ---------------------------------------------------------------------

  const InspectionTypeChoices: seq<(string, string)> := [("acceptance", "受入検査"), ("in_process", "工程内検査"),
    ("final", "最終検査"), ("shipping", "出荷検査"), ("patrol", "巡回検査")]
  const TargetObjectChoices: seq<(string, string)> := [("raw_material", "原材料"), ("component", "部品"),
    ("wip", "仕掛品"), ("finished_good", "完成品"), ("equipment", "設備"), ("process", "工程")]
  const MeasurementTypeChoices: seq<(string, string)> := [(QualityModels.Quantitative, "定量測定"),
    (QualityModels.Qualitative, "定性判定")]

  function ChoiceKey(c: (string, string)): string { c.0 }

  /** The select boxes offer exactly the keys the models accept, in the models' order. */
  lemma ChoicesMatchModels()
    ensures MapSeq(InspectionTypeChoices, ChoiceKey) == QualityModels.InspectionTypes
    ensures MapSeq(TargetObjectChoices, ChoiceKey) == QualityModels.TargetObjectTypes
    ensures MapSeq(MeasurementTypeChoices, ChoiceKey) == QualityModels.MeasurementTypes
  {
  }

  // ---------------------------------------------------------------------
  // The item form
  // ---------------------------------------------------------------------

  const NewItemTitle := "新規検査項目登録"
  const EditSuffix := " 変更"

  /** The form of a new item: blank texts, the first choice of each select, active. */
  const NewItem: Record := map["code" := Str(""), "name" := Str(""), "description" := Str(""),
    "inspection_type" := Str("acceptance"), "target_object_type" := Str("raw_material"), "is_active" := Bool(true)]

  /** A new item starts with choices the models accept and is active. */
  lemma NewItemIsValid()
    ensures NewItem["inspection_type"].Str? && NewItem["inspection_type"].s in QualityModels.InspectionTypes
    ensures NewItem["target_object_type"].Str? && NewItem["target_object_type"].s in QualityModels.TargetObjectTypes
    ensures NewItem["is_active"] == Bool(true)
  {
    assert QualityModels.InspectionTypes[0] == "acceptance";
    assert QualityModels.TargetObjectTypes[0] == "raw_material";
  }

  /** What a change event of the item form carries: a checkbox's state, or an input's text. */
  datatype MainInput = MainText(value: string) | MainCheckbox(checked: bool)

  /** `handleMainFormChange`: a checkbox stores a boolean, any other input its text. */
  function MainValue(input: MainInput): (v: Value)
    ensures input.MainCheckbox? <==> v.Bool?
    ensures input.MainCheckbox? ==> v == Bool(input.checked)
    ensures input.MainText? ==> v == Str(input.value)
  {
    match input
    case MainText(value) => Str(value)
    case MainCheckbox(checked) => Bool(checked)
  }

  // ---------------------------------------------------------------------
  // Detail rows
  // ---------------------------------------------------------------------

  const IdKey := "id"
  const OrderKey := "order"
  const MeasurementTypeKey := "measurement_type"
  const DetailsKey := "measurement_details"

  /** `addDetailRow`'s row: no id yet, a qualitative judgement, blank texts and null limits. */
  const NewDetailRow: Record := map[IdKey := Null, "name" := Str(""), MeasurementTypeKey := Str(QualityModels.Qualitative),
    "specification_nominal" := Null, "specification_upper_limit" := Null, "specification_lower_limit" := Null,
    "specification_unit" := Str(""), "expected_qualitative_result" := Str("")]

  /** `addDetailRow`: one more row at the end, with a null id so that saving creates it. */
  function AddRow(details: seq<Record>): (r: seq<Record>)
    ensures |r| == |details| + 1 && r[..|details|] == details
    ensures IdKey in r[|details|] && r[|details|][IdKey] == Null
    ensures MeasurementTypeKey in r[|details|] && r[|details|][MeasurementTypeKey] == Str(QualityModels.Qualitative)
  {
    details + [NewDetailRow]
  }

  /** `removeDetailRow`: exactly the row at `index` goes, the others keep their order. */
  lemma RemoveRowMeaning(details: seq<Record>, index: nat)
    requires index < |details|
    ensures |WithoutIndex(details, index)| == |details| - 1
    ensures WithoutIndex(details, index) == details[..index] + details[index + 1..]
    ensures multiset(WithoutIndex(details, index)) + multiset{details[index]} == multiset(details)
  {
    assert details == details[..index] + [details[index]] + details[index + 1..];
  }

  /** What a change event of a detail input carries: a number input's text, or any other input's text. */
  datatype DetailInput = DetailText(value: string) | DetailNumber(value: string)

  /**
   * The stored value of a detail input: text as it is; for a number input,
   * null when blank, else `Number(value)`. Values are integers here, so only
   * an integer numeral is read as a number; any other text, a fraction such
   * as "1.5" included, is taken as null.
   */
  function DetailValue(input: DetailInput): (v: Value)
    ensures input.DetailText? ==> v == Str(input.value)
    ensures input.DetailNumber? && input.value == "" ==> v == Null
    ensures input.DetailNumber? ==> v.Null? || v.Num?
  {
    match input
    case DetailText(value) => Str(value)
    case DetailNumber(value) =>
      if value == "" then Null
      else match IntegerText(value)
        case Some(n) => Num(n)
        case None => Null
  }

  /** A number typed as a numeral is stored as that number. */
  lemma NumberInputReadsBack(n: int)
    ensures DetailValue(DetailNumber(IntToString(n))) == Num(n)
  {
    IntegerTextOfIntToString(n);
  }

  /** `handleDetailChange`: only the row at `index` changes, and only in the field `name`. */
  function EditDetail(details: seq<Record>, index: nat, name: string, input: DetailInput): (r: seq<Record>)
    ensures |r| == |details|
    ensures forall k :: 0 <= k < |details| && k != index ==> r[k] == details[k]
    ensures index < |details| ==> name in r[index] && r[index][name] == DetailValue(input)
    ensures index < |details| ==> forall f :: f != name ==> (f in r[index] <==> f in details[index])
    ensures index < |details| ==> forall f :: f != name && f in details[index] ==> r[index][f] == details[index][f]
  {
    seq(|details|, k requires 0 <= k < |details| => if k == index then details[k][name := DetailValue(input)] else details[k])
  }

  /** The order the model reads from a row: its `order` when a number, else 0. */
  function OrderOf(row: Record): (n: int)
    ensures OrderKey in row && row[OrderKey].Num? ==> n == row[OrderKey].n
  {
    if OrderKey in row && row[OrderKey].Num? then row[OrderKey].n else 0
  }

  /** `handleSubmit`'s `orderedDetails`: each row gets `order` = its position + 1. */
  function Numbered(details: seq<Record>): (r: seq<Record>)
    ensures |r| == |details|
  {
    seq(|details|, k requires 0 <= k < |details| => details[k][OrderKey := Num(k + 1)])
  }

  /**
   * Numbering gives the orders 1, 2, …, n and leaves every other field of
   * a row as it was.
   */
  lemma NumberedMeaning(details: seq<Record>)
    ensures forall k :: 0 <= k < |details| ==> OrderOf(Numbered(details)[k]) == k + 1
    ensures forall k, f :: 0 <= k < |details| && f != OrderKey ==>
      (f in Numbered(details)[k] <==> f in details[k])
    ensures forall k, f :: 0 <= k < |details| && f != OrderKey && f in details[k] ==>
      Numbered(details)[k][f] == details[k][f]
  {
  }

  /**
   * The details are read back ordered by `order` (the model's ordering after
   * the item); the numbered rows are already in that order, so the server
   * lists them as the page showed them.
   */
  lemma NumberedKeepsPageOrder(details: seq<Record>)
    ensures SortBy(Numbered(details), OrderOf) == Numbered(details)
  {
    var r := Numbered(details);
    NumberedMeaning(details);
    assert SortedBy(r, OrderOf) by {
      forall i, j | 0 <= i < j < |r| ensures OrderOf(r[i]) <= OrderOf(r[j]) {
      }
    }
    SortByOfSorted(r, OrderOf);
  }

  /** Dropping a row somewhere else moves it there and keeps the others in their order; the numbering follows. */
  lemma DragThenNumber(details: seq<Record>, oldIndex: nat, newIndex: nat)
    requires oldIndex < |details| && newIndex < |details|
    ensures multiset(Move(details, oldIndex, newIndex)) == multiset(details)
    ensures RemoveAt(Move(details, oldIndex, newIndex), newIndex) == RemoveAt(details, oldIndex)
    ensures OrderOf(Numbered(Move(details, oldIndex, newIndex))[newIndex]) == newIndex + 1
  {
    MovePermutes(details, oldIndex, newIndex);
    MoveKeepsOthersInOrder(details, oldIndex, newIndex);
    NumberedMeaning(Move(details, oldIndex, newIndex));
  }

  // ---------------------------------------------------------------------
  // Saving
  // ---------------------------------------------------------------------

  datatype Mode = NewMode | EditMode

  const ItemsUrl := "/api/quality/inspection-items/"
  /** The HTTP method of a save. */
  datatype SaveMethod = POST | PUT

  /** A template literal of a possibly null id: `${null}` is "null". */
  function IdText(id: Option<string>): (t: string)
    ensures id.Some? ==> t == id.value
  {
    match id
    case Some(s) => s
    case None => "null"
  }

  /** The save request: the item's fields with the numbered details. */
  datatype SaveRequest = SaveRequest(verb: SaveMethod, url: string, item: Record, details: seq<Record>)

  /** POST to the list for a new item, PUT to the item's own URL for an edited one. */
  function SaveRequestFor(mode: Mode, editingId: Option<string>, item: Record, details: seq<Record>): (r: SaveRequest)
    ensures mode == NewMode <==> r.verb == POST
    ensures mode == EditMode <==> r.verb == PUT
    ensures mode == NewMode ==> r.url == ItemsUrl
    ensures mode == EditMode ==> r.url == ItemsUrl + IdText(editingId) + "/"
    ensures r.item == item && r.details == Numbered(details)
  {
    match mode
    case NewMode => SaveRequest(POST, ItemsUrl, item, Numbered(details))
    case EditMode => SaveRequest(PUT, ItemsUrl + IdText(editingId) + "/", item, Numbered(details))
  }

  // ---------------------------------------------------------------------
  // Flattening the nested errors
  // ---------------------------------------------------------------------

  /** One entry of the serializer's `measurement_details` errors: null, or each field with its messages. */
  datatype DetailError = NullEntry | FieldErrors(fields: seq<(string, seq<string>)>)

  /** A value of the error object: a field's messages, a text, or the nested list of detail errors. */
  datatype FormError = Messages(list: seq<string>) | Text(text: string) | DetailList(entries: seq<DetailError>)

  /** The key the page reads a row's field error under: `measurement_details-{index}-{field}`. */
  function FlatKey(index: nat, field: string): (k: string)
    ensures StartsWith(k, DetailsKey + "-") && |k| > |DetailsKey|
  {
    DetailsKey + "-" + NatToString(index) + "-" + field
  }

  /** In digits followed by a dash and anything, the first dash is right after the digits. */
  lemma DashAfterDigits(a: string, f: string)
    requires AllDigits(a)
    ensures (a + "-" + f)[|a|] == '-'
    ensures forall i :: 0 <= i < |a| ==> (a + "-" + f)[i] != '-'
  {
    assert forall i :: 0 <= i < |a| ==> (a + "-" + f)[i] == a[i];
  }

  /** Digits then a dash: the dash marks where the digits end. */
  lemma DashSplit(a: string, f: string, b: string, g: string)
    requires AllDigits(a) && AllDigits(b)
    requires a + "-" + f == b + "-" + g
    ensures a == b && f == g
  {
    var t := a + "-" + f;
    DashAfterDigits(a, f);
    DashAfterDigits(b, g);
    assert |a| == |b|;
    assert a == t[..|a|] == (b + "-" + g)[..|b|] == b;
    assert f == t[|a| + 1..] == (b + "-" + g)[|b| + 1..] == g;
  }

  /** Different rows or fields never share a flattened key. */
  lemma FlatKeyInjective(i: nat, f: string, j: nat, g: string)
    ensures FlatKey(i, f) == FlatKey(j, g) ==> i == j && f == g
  {
    if FlatKey(i, f) == FlatKey(j, g) {
      var head := DetailsKey + "-";
      var a, b := NatToString(i), NatToString(j);
      var s := FlatKey(i, f);
      assert s == head + (a + "-" + f);
      assert s == head + (b + "-" + g);
      assert a + "-" + f == s[|head|..] == b + "-" + g;
      DashSplit(a, f, b, g);
      DigitsValueOfNatToString(i);
      DigitsValueOfNatToString(j);
    }
  }

  /** The keys written for the fields of row `index`, in order; a later entry for the same field wins. */
  function AddFields(acc: map<string, string>, index: nat, fields: seq<(string, seq<string>)>): map<string, string>
    decreases |fields|
  {
    if fields == [] then acc
    else
      var n := |fields| - 1;
      AddFields(acc, index, fields[..n])[FlatKey(index, fields[n].0) := Join(fields[n].1, " ")]
  }

  /** Adding a row's fields adds exactly the keys of those fields. */
  lemma {:induction false} AddFieldsKeys(acc: map<string, string>, index: nat, fields: seq<(string, seq<string>)>, k: string)
    ensures k in AddFields(acc, index, fields) <==> k in acc || exists p :: 0 <= p < |fields| && k == FlatKey(index, fields[p].0)
    decreases |fields|
  {
    if fields != [] {
      var n := |fields| - 1;
      assert forall p :: 0 <= p < n ==> fields[..n][p] == fields[p];
      AddFieldsKeys(acc, index, fields[..n], k);
    }
  }

  /** The flattened errors of all rows: what the `forEach` over the entries writes into `flatErrors`. */
  function FlatErrors(entries: seq<DetailError>): (r: map<string, string>)
    decreases |entries|
  {
    if entries == [] then map[]
    else
      var n := |entries| - 1;
      var before := FlatErrors(entries[..n]);
      match entries[n]
      case NullEntry => before
      case FieldErrors(fields) => AddFields(before, n, fields)
  }

  /** The loops of `handleSubmit` that fill `flatErrors`. */
  method FlattenDetailErrors(entries: seq<DetailError>) returns (flat: map<string, string>)
    ensures flat == FlatErrors(entries)
  {
    flat := map[];
    var i := 0;
    while i < |entries|
      invariant 0 <= i <= |entries|
      invariant flat == FlatErrors(entries[..i])
    {
      assert entries[..i + 1][..i] == entries[..i];
      match entries[i] {
        case NullEntry =>
        case FieldErrors(fields) =>
          ghost var start := flat;
          var p := 0;
          while p < |fields|
            invariant 0 <= p <= |fields|
            invariant flat == AddFields(start, i, fields[..p])
          {
            assert fields[..p + 1][..p] == fields[..p];
            flat := flat[FlatKey(i, fields[p].0) := Join(fields[p].1, " ")];
            p := p + 1;
          }
          assert fields[..p] == fields;
      }
      i := i + 1;
    }
    assert entries[..i] == entries;
  }

  /** A key not written for any field leaves the accumulated value alone. */
  lemma {:induction false} AddFieldsOther(acc: map<string, string>, index: nat, fields: seq<(string, seq<string>)>, k: string)
    requires k in acc
    requires forall p :: 0 <= p < |fields| ==> k != FlatKey(index, fields[p].0)
    ensures k in AddFields(acc, index, fields) && AddFields(acc, index, fields)[k] == acc[k]
    decreases |fields|
  {
    if fields != [] {
      var n := |fields| - 1;
      assert forall p :: 0 <= p < n ==> fields[..n][p] == fields[p];
      AddFieldsOther(acc, index, fields[..n], k);
    }
  }

  /** A field's key holds its last entry's messages joined by a space. */
  lemma {:induction false} AddFieldsValue(acc: map<string, string>, index: nat, fields: seq<(string, seq<string>)>, p: nat)
    requires p < |fields|
    requires forall q :: p < q < |fields| ==> fields[q].0 != fields[p].0
    ensures FlatKey(index, fields[p].0) in AddFields(acc, index, fields)
    ensures AddFields(acc, index, fields)[FlatKey(index, fields[p].0)] == Join(fields[p].1, " ")
    decreases |fields|
  {
    var n := |fields| - 1;
    if p < n {
      assert forall q :: 0 <= q < n ==> fields[..n][q] == fields[q];
      AddFieldsValue(acc, index, fields[..n], p);
      FlatKeyInjective(index, fields[n].0, index, fields[p].0);
    }
  }

  /**
   * Every key of the flattened errors belongs to a field of a non-null
   * entry, and every field of every non-null entry has its key.
   */
  lemma {:induction false} FlatErrorsKeys(entries: seq<DetailError>, k: string)
    ensures k in FlatErrors(entries) <==>
      exists i, p :: 0 <= i < |entries| && entries[i].FieldErrors? && 0 <= p < |entries[i].fields|
        && k == FlatKey(i, entries[i].fields[p].0)
    decreases |entries|
  {
    if entries != [] {
      var n := |entries| - 1;
      var init := entries[..n];
      assert forall i :: 0 <= i < n ==> init[i] == entries[i];
      FlatErrorsKeys(init, k);
      if k in FlatErrors(entries) {
        if k in FlatErrors(init) {
          var i, p :| 0 <= i < |init| && init[i].FieldErrors? && 0 <= p < |init[i].fields|
            && k == FlatKey(i, init[i].fields[p].0);
          assert entries[i] == init[i];
        } else {
          AddFieldsKeys(FlatErrors(init), n, entries[n].fields, k);
          var p :| 0 <= p < |entries[n].fields| && k == FlatKey(n, entries[n].fields[p].0);
        }
      } else {
        if entries[n].FieldErrors? {
          AddFieldsKeys(FlatErrors(init), n, entries[n].fields, k);
        }
        forall i, p | 0 <= i < |entries| && entries[i].FieldErrors? && 0 <= p < |entries[i].fields|
          ensures k != FlatKey(i, entries[i].fields[p].0)
        {
          if i < n {
            assert init[i] == entries[i];
          }
        }
      }
    }
  }

  /**
   * The key of field `fields[p].0` of row `i` holds that entry's messages
   * joined by a space, when no later entry of the row names the same field.
   */
  lemma {:induction false} FlatErrorsValue(entries: seq<DetailError>, i: nat, p: nat)
    requires i < |entries| && entries[i].FieldErrors? && p < |entries[i].fields|
    requires forall q :: p < q < |entries[i].fields| ==> entries[i].fields[q].0 != entries[i].fields[p].0
    ensures FlatKey(i, entries[i].fields[p].0) in FlatErrors(entries)
    ensures FlatErrors(entries)[FlatKey(i, entries[i].fields[p].0)] == Join(entries[i].fields[p].1, " ")
    decreases |entries|
  {
    var n := |entries| - 1;
    var init := entries[..n];
    var k := FlatKey(i, entries[i].fields[p].0);
    if i == n {
      AddFieldsValue(FlatErrors(init), n, entries[n].fields, p);
    } else {
      assert init[i] == entries[i];
      FlatErrorsValue(init, i, p);
      if entries[n].FieldErrors? {
        forall q | 0 <= q < |entries[n].fields| ensures k != FlatKey(n, entries[n].fields[q].0) {
          FlatKeyInjective(i, entries[i].fields[p].0, n, entries[n].fields[q].0);
        }
        AddFieldsOther(FlatErrors(init), n, entries[n].fields, k);
      }
    }
  }

  /** A null entry (a row without errors) marks none of its row's inputs. */
  lemma NullEntryMarksNothing(entries: seq<DetailError>, i: nat, field: string)
    requires i < |entries| && entries[i].NullEntry?
    ensures FlatKey(i, field) !in FlatErrors(entries)
  {
    FlatErrorsKeys(entries, FlatKey(i, field));
    if FlatKey(i, field) in FlatErrors(entries) {
      var j, p :| 0 <= j < |entries| && entries[j].FieldErrors? && 0 <= p < |entries[j].fields|
        && FlatKey(i, field) == FlatKey(j, entries[j].fields[p].0);
      FlatKeyInjective(i, field, j, entries[j].fields[p].0);
    }
  }

  /**
   * `{...errors, ...flatErrors}`: when the nested errors are a list, they
   * are replaced by their flattened keys; anything else is kept as it came.
   */
  function FormErrorsFor(errors: map<string, FormError>): (r: map<string, FormError>)
    ensures (DetailsKey in errors && errors[DetailsKey].DetailList?) ==> DetailsKey !in r
    ensures !(DetailsKey in errors && errors[DetailsKey].DetailList?) ==> r == errors
  {
    if DetailsKey in errors && errors[DetailsKey].DetailList? then
      var flat := FlatErrors(errors[DetailsKey].entries);
      FlatErrorsKeys(errors[DetailsKey].entries, DetailsKey);
      (errors - {DetailsKey}) + map k | k in flat :: Text(flat[k])
    else errors
  }

  /**
   * After flattening, a top-level field error other than the nested list is
   * still under its own key, unless a flattened key coincides with it.
   */
  lemma FormErrorsKeepFields(errors: map<string, FormError>, k: string)
    requires k in errors && k != DetailsKey && !StartsWith(k, DetailsKey + "-")
    ensures k in FormErrorsFor(errors) && FormErrorsFor(errors)[k] == errors[k]
  {
    if DetailsKey in errors && errors[DetailsKey].DetailList? {
      FlatErrorsKeys(errors[DetailsKey].entries, k);
    }
  }

  /** The input of row `i`, field `fields[p].0`, shows the messages of its entry joined by a space. */
  lemma RowErrorShown(errors: map<string, FormError>, i: nat, p: nat)
    requires DetailsKey in errors && errors[DetailsKey].DetailList?
    requires var es := errors[DetailsKey].entries;
      i < |es| && es[i].FieldErrors? && p < |es[i].fields|
      && forall q :: p < q < |es[i].fields| ==> es[i].fields[q].0 != es[i].fields[p].0
    ensures var f := errors[DetailsKey].entries[i].fields[p];
      FlatKey(i, f.0) in FormErrorsFor(errors) && FormErrorsFor(errors)[FlatKey(i, f.0)] == Text(Join(f.1, " "))
  {
    FlatErrorsValue(errors[DetailsKey].entries, i, p);
  }

  // ---------------------------------------------------------------------
  // Answers
  // ---------------------------------------------------------------------

  /** The list answer. */
  datatype ItemsAnswer = ItemsLoaded(data: seq<Record>) | ItemsNotOk | ItemsRefused(message: string) | ItemsThrown(reason: string)

  const ListErrorPrefix := "一覧の読み込みに失敗しました: "
  const NotOkText := "Network response was not ok"
  const FetchFailedText := "Failed to fetch items"

  /** The `Error` message the list fetch ends with. */
  function ItemsFailure(a: ItemsAnswer): (reason: string)
    ensures a.ItemsNotOk? ==> reason == NotOkText
    ensures a.ItemsRefused? ==> reason == OrElse(a.message, FetchFailedText)
    ensures a.ItemsThrown? ==> reason == a.reason
  {
    match a
    case ItemsLoaded(_) => ""
    case ItemsNotOk => NotOkText
    case ItemsRefused(message) => OrElse(message, FetchFailedText)
    case ItemsThrown(reason) => reason
  }

  /** The answer for one item: its fields, the nested details when present, or a failure. */
  datatype ItemAnswer =
    | ItemLoaded(data: Record, details: Option<seq<Record>>)
    | ItemNotOk(status: nat)
    | ItemRefused(message: string)
    | ItemThrown(reason: string)

  const LoadErrorPrefix := "データ読み込みエラー: "
  const ItemLoadFailedText := "項目データの読み込みに失敗しました"

  /** The `Error` message a failed item load ends with. */
  function ItemFailure(a: ItemAnswer): (reason: string)
    ensures a.ItemNotOk? ==> reason == "サーバーが " + NatToString(a.status) + " で応答しました"
    ensures a.ItemRefused? ==> reason == OrElse(a.message, ItemLoadFailedText)
    ensures a.ItemThrown? ==> reason == a.reason
  {
    match a
    case ItemLoaded(_, _) => ""
    case ItemNotOk(status) => "サーバーが " + NatToString(status) + " で応答しました"
    case ItemRefused(message) => OrElse(message, ItemLoadFailedText)
    case ItemThrown(reason) => reason
  }

  /** The save answer: success with its message, a rejection with its errors, or no answer. */
  datatype SaveReply =
    | Saved(message: string)
    | Rejected(message: string, errors: map<string, FormError>)
    | SaveThrown(reason: string)

  const CheckInputText := "入力内容を確認してください。"
  const SendErrorPrefix := "送信中にエラーが発生しました: "
  const Danger := "danger"
  const Succeeded := "success"

  /** The message a save answer shows in the modal. */
  function SaveMessage(reply: SaveReply): (m: Message)
    ensures reply.Saved? ==> m == Message(reply.message, Succeeded)
    ensures reply.Rejected? ==> m == Message(OrElse(reply.message, CheckInputText), Danger)
    ensures reply.SaveThrown? ==> m == Message(SendErrorPrefix + reply.reason, Danger)
  {
    match reply
    case Saved(message) => Message(message, Succeeded)
    case Rejected(message, _) => Message(OrElse(message, CheckInputText), Danger)
    case SaveThrown(reason) => Message(SendErrorPrefix + reason, Danger)
  }

  // ---------------------------------------------------------------------
  // The page
  // ---------------------------------------------------------------------

  class Screen {
    var items: seq<Record>
    var loading: bool
    var listError: Option<string>
    var isModalOpen: bool
    var modalMode: Mode
    var editingItemId: Option<string>
    var modalTitle: string
    var currentItem: Option<Record>
    var measurementDetails: seq<Record>
    var formErrors: map<string, FormError>
    var globalMessage: Message

    constructor ()
      ensures items == [] && loading && listError.None?
      ensures !isModalOpen && modalMode == NewMode && editingItemId.None? && modalTitle == ""
      ensures currentItem.None? && measurementDetails == [] && formErrors == map[] && globalMessage == NoMessage
    {
      items, loading, listError := [], true, None;
      isModalOpen, modalMode, editingItemId, modalTitle := false, NewMode, None, "";
      currentItem, measurementDetails, formErrors, globalMessage := None, [], map[], NoMessage;
    }

    /** `fetchItems`: the items on success; otherwise the list is kept and the error shown. */
    method FetchItems(answer: ItemsAnswer)
      modifies this`items, this`loading, this`listError
      ensures !loading
      ensures answer.ItemsLoaded? ==> items == answer.data && listError.None?
      ensures !answer.ItemsLoaded? ==> items == old(items) && listError == Some(ListErrorPrefix + ItemsFailure(answer))
    {
      listError := None;
      match answer {
        case ItemsLoaded(data) =>
          items := data;
        case _ =>
          listError := Some(ListErrorPrefix + ItemsFailure(answer));
      }
      loading := false;
    }

    /** `openModal(null)`: a blank new item with no details, in new mode. */
    method OpenNewModal()
      modifies this`formErrors, this`globalMessage, this`modalMode, this`editingItemId, this`modalTitle
      modifies this`currentItem, this`measurementDetails, this`isModalOpen
      ensures formErrors == map[] && globalMessage == NoMessage
      ensures modalMode == NewMode && editingItemId.None? && modalTitle == NewItemTitle
      ensures currentItem == Some(NewItem) && measurementDetails == [] && isModalOpen
    {
      formErrors, globalMessage := map[], NoMessage;
      modalMode, editingItemId, modalTitle := NewMode, None, NewItemTitle;
      currentItem, measurementDetails, isModalOpen := Some(NewItem), [], true;
    }

    /**
     * `openModal(id, name)`: in edit mode; the loaded item without its nested
     * details goes into the form and its details into the rows. On failure
     * the modal stays as it was, with the error in the modal's message.
     */
    method OpenEditModal(id: string, name: string, answer: ItemAnswer)
      modifies this`formErrors, this`globalMessage, this`modalMode, this`editingItemId, this`modalTitle
      modifies this`currentItem, this`measurementDetails, this`isModalOpen
      ensures modalMode == EditMode && editingItemId == Some(id) && modalTitle == name + EditSuffix
      ensures formErrors == map[]
      ensures answer.ItemLoaded? ==>
        && currentItem == Some(answer.data - {DetailsKey})
        && measurementDetails == (if answer.details.Some? then answer.details.value else [])
        && isModalOpen && globalMessage == NoMessage
      ensures !answer.ItemLoaded? ==>
        && currentItem == old(currentItem) && measurementDetails == old(measurementDetails)
        && isModalOpen == old(isModalOpen)
        && globalMessage == Message(LoadErrorPrefix + ItemFailure(answer), Danger)
    {
      formErrors, globalMessage := map[], NoMessage;
      modalMode, editingItemId, modalTitle := EditMode, Some(id), name + EditSuffix;
      match answer {
        case ItemLoaded(data, details) =>
          currentItem := Some(data - {DetailsKey});
          measurementDetails := if details.Some? then details.value else [];
          isModalOpen := true;
        case _ =>
          globalMessage := Message(LoadErrorPrefix + ItemFailure(answer), Danger);
      }
    }

    /** `handleMainFormChange`: one field of the item form. */
    method HandleMainFormChange(name: string, input: MainInput)
      modifies this`currentItem
      ensures currentItem == Some((if old(currentItem).Some? then old(currentItem).value else map[])[name := MainValue(input)])
    {
      var item := if currentItem.Some? then currentItem.value else map[];
      currentItem := Some(item[name := MainValue(input)]);
    }

    /** `handleDetailChange`. */
    method HandleDetailChange(index: nat, name: string, input: DetailInput)
      modifies this`measurementDetails
      ensures measurementDetails == EditDetail(old(measurementDetails), index, name, input)
    {
      measurementDetails := EditDetail(measurementDetails, index, name, input);
    }

    /** `addDetailRow`. */
    method AddDetailRow()
      modifies this`measurementDetails
      ensures measurementDetails == AddRow(old(measurementDetails))
    {
      measurementDetails := AddRow(measurementDetails);
    }

    /** `removeDetailRow`. */
    method RemoveDetailRow(index: nat)
      modifies this`measurementDetails
      ensures measurementDetails == WithoutIndex(old(measurementDetails), index)
    {
      measurementDetails := WithoutIndex(measurementDetails, index);
    }

    /** The drag-end handler: the dragged row moves from `oldIndex` to `newIndex` (both rows of the table). */
    method HandleDragEnd(oldIndex: nat, newIndex: nat)
      requires oldIndex < |measurementDetails| && newIndex < |measurementDetails|
      modifies this`measurementDetails
      ensures measurementDetails == Move(old(measurementDetails), oldIndex, newIndex)
    {
      var copy := measurementDetails;
      var moved := copy[oldIndex];
      copy := RemoveAt(copy, oldIndex);
      copy := InsertAt(copy, newIndex, moved);
      measurementDetails := copy;
    }

    /** `handleSubmit` up to the request: the old errors and message cleared, the item sent with its numbered details. */
    method HandleSubmit() returns (request: SaveRequest)
      modifies this`formErrors, this`globalMessage
      ensures formErrors == map[] && globalMessage == NoMessage
      ensures request == SaveRequestFor(modalMode, editingItemId,
        if currentItem.Some? then currentItem.value else map[], measurementDetails)
    {
      formErrors, globalMessage := map[], NoMessage;
      var item := if currentItem.Some? then currentItem.value else map[];
      request := SaveRequestFor(modalMode, editingItemId, item, measurementDetails);
    }

    /** The save answer: its message, and on a rejection the errors with the nested ones flattened. */
    method FinishSubmit(reply: SaveReply)
      modifies this`formErrors, this`globalMessage
      ensures globalMessage == SaveMessage(reply)
      ensures reply.Rejected? ==> formErrors == FormErrorsFor(reply.errors)
      ensures !reply.Rejected? ==> formErrors == old(formErrors)
    {
      if reply.Rejected? {
        var errors := reply.errors;
        if DetailsKey in errors && errors[DetailsKey].DetailList? {
          var flat := FlattenDetailErrors(errors[DetailsKey].entries);
          errors := (errors - {DetailsKey}) + map k | k in flat :: Text(flat[k]);
        }
        formErrors := errors;
      }
      globalMessage := SaveMessage(reply);
    }

    /** The close button, and the timer after a successful save. */
    method CloseModal()
      modifies this`isModalOpen
      ensures !isModalOpen
    {
      isModalOpen := false;
    }
  }
}
