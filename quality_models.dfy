/**
 * The records of the `quality` application (backend/src/quality/models.py):
 * inspection items with their measurement details, and inspection results
 * with one detail per measured value. Tables are maps keyed by primary key
 * (a UUID, kept as its text); a row's columns are a map from column name to
 * its decoded value, with the model's defaults for the columns not given.
 */
module QualityModels {
  import opened Common
  import opened Json

  const InspectionTypes: seq<string> := ["acceptance", "in_process", "final", "shipping", "patrol"]
  const TargetObjectTypes: seq<string> := ["raw_material", "component", "wip", "finished_good", "equipment", "process"]

  /** `MEASUREMENT_TYPE_CHOICES`: a quantitative detail is measured, a qualitative one judged. */
  const Quantitative := "quantitative"
  const Qualitative := "qualitative"
  const MeasurementTypes: seq<string> := [Quantitative, Qualitative]

  /** `JUDGMENT_CHOICES` keys and their labels; "pending" is the default. */
  const Judgments: seq<Choice> := [Choice("pass", "合格"), Choice("fail", "不合格"), Choice("pending", "保留"), Choice("conditional_pass", "条件付き合格")]

  const ItemVerboseName := "検査項目マスター"
  const ResultVerboseName := "検査実績"

  /** The columns of one row, by name. */
  type Attrs = map<string, Value>

  /** The column defaults of a new inspection item. */
  const ItemDefaults: Attrs := map["code" := Str(""), "name" := Str(""), "description" := Null,
    "inspection_type" := Str(""), "target_object_type" := Str(""), "is_active" := Bool(true)]

  /** The column defaults of a new measurement detail: nullable columns are null, `order` is 0. */
  const DetailDefaults: Attrs := map["name" := Str(""), "measurement_type" := Str(""), "specification_nominal" := Null,
    "specification_upper_limit" := Null, "specification_lower_limit" := Null, "specification_unit" := Null,
    "expected_qualitative_result" := Null, "order" := Num(0)]

  /** The column defaults of a new inspection result: its judgment is "pending". */
  const ResultDefaults: Attrs := map["part_number" := Null, "lot_number" := Null, "serial_number" := Null,
    "related_order_type" := Null, "related_order_number" := Null, "quantity_inspected" := Null,
    "judgment" := Str("pending"), "remarks" := Null, "attachment" := Null, "equipment_used" := Null]

  datatype InspectionItem = InspectionItem(attrs: Attrs)

  /** A measurement detail belongs to one item; deleting the item deletes it. */
  datatype MeasurementDetail = MeasurementDetail(itemId: string, attrs: Attrs)

  /** An inspection result protects its item from deletion; `inspectedBy` is the user's key. */
  datatype InspectionResult = InspectionResult(itemId: string, inspectedBy: Option<string>, attrs: Attrs)

  /** One recorded value; it protects its measurement detail from deletion. */
  datatype ResultDetail = ResultDetail(resultId: string, detailId: string, numeric: Value, qualitative: Value)

  /** A column of a row, `None` when the row has no such column. */
  function Column(attrs: Attrs, name: string): (v: Value)
    ensures name in attrs ==> v == attrs[name]
    ensures name !in attrs ==> v == Null
  {
    if name in attrs then attrs[name] else Null
  }

  /** `InspectionItem.__str__`: "code - name". */
  function ItemText(item: InspectionItem): (t: string)
    ensures StartsWith(t, PyStr(Column(item.attrs, "code")) + " - ")
  {
    var prefix := PyStr(Column(item.attrs, "code")) + " - ";
    var t := prefix + PyStr(Column(item.attrs, "name"));
    assert t[..|prefix|] == prefix;
    t
  }

  /** `InspectionResult.__str__`: its key, then the item's name and the judgment's label in brackets. */
  function ResultText(resultId: string, item: InspectionItem, result: InspectionResult): (t: string)
    ensures StartsWith(t, "検査結果 " + resultId + " (" + PyStr(Column(item.attrs, "name")) + " - ")
    ensures PyStr(Column(result.attrs, "judgment")) == "pass" ==> t == "検査結果 " + resultId + " (" + PyStr(Column(item.attrs, "name")) + " - 合格)"
  {
    var prefix := "検査結果 " + resultId + " (" + PyStr(Column(item.attrs, "name")) + " - ";
    var t := prefix + ChoiceDisplay(Judgments, PyStr(Column(result.attrs, "judgment"))) + ")";
    assert t[..|prefix|] == prefix;
    t
  }

  /** The details of an item, by key. */
  function ItemDetailIds(details: map<string, MeasurementDetail>, itemId: string): (ids: set<string>)
    ensures forall id :: id in ids <==> id in details && details[id].itemId == itemId
  {
    set id | id in details && details[id].itemId == itemId
  }

  /** Every foreign key points at a row that exists. */
  ghost predicate Linked(items: map<string, InspectionItem>, details: map<string, MeasurementDetail>,
    results: map<string, InspectionResult>, resultDetails: map<string, ResultDetail>)
  {
    && (forall id :: id in details ==> details[id].itemId in items)
    && (forall id :: id in results ==> results[id].itemId in items)
    && (forall id :: id in resultDetails ==> resultDetails[id].resultId in results && resultDetails[id].detailId in details)
  }

  /** New items, and a details table whose rows all have an item, keep the keys linked while every recorded detail remains. */
  lemma LinkedWithDetails(items0: map<string, InspectionItem>, items: map<string, InspectionItem>,
    details0: map<string, MeasurementDetail>, details: map<string, MeasurementDetail>,
    results: map<string, InspectionResult>, resultDetails: map<string, ResultDetail>)
    requires Linked(items0, details0, results, resultDetails)
    requires items0.Keys <= items.Keys
    requires forall id :: id in details ==> details[id].itemId in items
    requires forall id :: id in resultDetails ==> resultDetails[id].detailId in details
    ensures Linked(items, details, results, resultDetails)
  {
  }

  /** A new result of an existing item, and details of existing results, keep the keys linked. */
  lemma LinkedAddResult(items: map<string, InspectionItem>, details: map<string, MeasurementDetail>,
    results: map<string, InspectionResult>, resultDetails: map<string, ResultDetail>,
    resultId: string, result: InspectionResult, extra: map<string, ResultDetail>)
    requires Linked(items, details, results, resultDetails)
    requires result.itemId in items
    requires forall id :: id in extra ==> extra[id].resultId == resultId && extra[id].detailId in details
    ensures Linked(items, details, results[resultId := result], resultDetails + extra)
  {
  }
}
