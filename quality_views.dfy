/**
 * The quality REST views (backend/src/quality/rest_views.py): recording an
 * inspection result from a form post whose measured values arrive as a JSON
 * text, and the success-message mixin's `update` and `destroy`.
 */
module QualityViews {
  import opened Common
  import opened Json
  import opened QualityModels
  import opened QualitySerializers

  /** The `measurement_details_payload` member of the form post. */
  datatype PayloadField = PayloadAbsent | PayloadText(text: string)

  /** The text handed to `json.loads`: an absent member reads as "[]". */
  function PayloadSource(f: PayloadField): (t: string)
    ensures f.PayloadAbsent? ==> t == "[]"
    ensures f.PayloadText? ==> t == f.text
  {
    match f
    case PayloadAbsent => "[]"
    case PayloadText(t) => t
  }

  /** The id an entry names (`d.get("measurement_detail_id")`). */
  function EntryId(entry: Record): Value
  {
    DataGet(entry, "measurement_detail_id", Null)
  }

  /** The entry names a measurement detail of this item, by its key as text. */
  predicate EntryKnown(details: map<string, MeasurementDetail>, itemId: string, entry: Record)
  {
    var id := EntryId(entry);
    id.Str? && id.s in details && details[id.s].itemId == itemId
  }

  /** `value if value not in [None, ""] else None`. */
  function NullIfBlank(v: Value): (r: Value)
    ensures v.Null? || v == Str("") ==> r.Null?
    ensures !(v.Null? || v == Str("")) ==> r == v
  {
    if v.Null? || v == Str("") then Null else v
  }

  /**
   * The detail dict of one known entry: a quantitative detail's value goes
   * to the numeric column, any other to the qualitative one.
   */
  function DetailFor(details: map<string, MeasurementDetail>, itemId: string, entry: Record): (d: ResultDetailInput)
    requires EntryKnown(details, itemId, entry)
    ensures d.detailId == EntryId(entry).s
    ensures var v := NullIfBlank(DataGet(entry, "value", Null));
      if Column(details[d.detailId].attrs, "measurement_type") == Str(Quantitative)
      then d.numeric == v && d.qualitative.Null?
      else d.qualitative == v && d.numeric.Null?
  {
    var id := EntryId(entry).s;
    var v := NullIfBlank(DataGet(entry, "value", Null));
    if Column(details[id].attrs, "measurement_type") == Str(Quantitative)
    then ResultDetailInput(id, v, Null)
    else ResultDetailInput(id, Null, v)
  }

  /** The outcome of the payload loop: the first unknown id, or one detail dict per entry. */
  datatype Built = UnknownId(id: Value) | Built(inputs: seq<ResultDetailInput>)

  /**
   * The loop over the decoded payload: it stops at the first entry that does
   * not name a detail of this item, else builds one dict per entry, in order.
   */
  method BuildDetails(details: map<string, MeasurementDetail>, itemId: string, payload: seq<Record>) returns (b: Built)
    ensures b.Built? <==> forall k :: 0 <= k < |payload| ==> EntryKnown(details, itemId, payload[k])
    ensures b.Built? ==> (|b.inputs| == |payload|
      && forall k :: 0 <= k < |payload| ==> b.inputs[k] == DetailFor(details, itemId, payload[k]))
    ensures b.UnknownId? ==>
      exists k :: 0 <= k < |payload| && !EntryKnown(details, itemId, payload[k]) && b.id == EntryId(payload[k])
                  && forall j :: 0 <= j < k ==> EntryKnown(details, itemId, payload[j])
    ensures b.Built? ==> forall k :: 0 <= k < |b.inputs| ==> b.inputs[k].detailId in details
  {
    var built: seq<ResultDetailInput> := [];
    var k := 0;
    while k < |payload|
      invariant 0 <= k <= |payload|
      invariant forall j :: 0 <= j < k ==> EntryKnown(details, itemId, payload[j])
      invariant |built| == k
      invariant forall j :: 0 <= j < k ==> built[j] == DetailFor(details, itemId, payload[j])
    {
      if !EntryKnown(details, itemId, payload[k]) {
        return UnknownId(EntryId(payload[k]));
      }
      built := built + [DetailFor(details, itemId, payload[k])];
      k := k + 1;
    }
    return Built(built);
  }

  /** The answers of `record_result`. */
  datatype RecordReply =
    | ItemNotFound                          // 404 from `get_object`
    | Recorded(message: string)             // 201
    | MalformedPayload                      // 400, the JSON text did not decode
    | InvalidDetailId(id: Value)            // 400, an entry names no detail of this item
    | RecordFailed                          // 400, the id query or the serializer refused

  function RecordStatus(r: RecordReply): (code: int)
    ensures r.ItemNotFound? <==> code == 404
    ensures r.Recorded? <==> code == 201
  {
    match r
    case ItemNotFound => 404
    case Recorded(_) => 201
    case _ => 400
  }

  const MalformedMessage := "測定詳細のデータ形式が不正です。"

  /** The message of a recorded result, naming the item. */
  function RecordedMessage(item: InspectionItem): string
  {
    "検査項目「" + PyStr(Column(item.attrs, "name")) + "」の結果を登録しました。"
  }

  /** The result's own columns, read from the form post (`None` when absent). */
  function ResultAttrs(data: Record): (a: Attrs)
    ensures a.Keys == {"lot_number", "equipment_used", "remarks", "attachment"}
    ensures forall k :: k in a ==> a[k] == DataGet(data, k, Null)
  {
    map["lot_number" := DataGet(data, "lot_number", Null),
        "equipment_used" := DataGet(data, "equipment_used", Null),
        "remarks" := DataGet(data, "remarks", Null),
        "attachment" := DataGet(data, "attachment", Null)]
  }

  /** Every entry of the payload names a detail of this item. */
  predicate AllKnown(details: map<string, MeasurementDetail>, itemId: string, payload: seq<Record>)
  {
    forall k :: 0 <= k < |payload| ==> EntryKnown(details, itemId, payload[k])
  }

  /** The detail dicts of a payload whose entries are all known, in order. */
  function DetailsFor(details: map<string, MeasurementDetail>, itemId: string, payload: seq<Record>): (r: seq<ResultDetailInput>)
    requires AllKnown(details, itemId, payload)
    ensures |r| == |payload|
    ensures forall k :: 0 <= k < |payload| ==> r[k] == DetailFor(details, itemId, payload[k])
  {
    seq(|payload|, k requires 0 <= k < |payload| => DetailFor(details, itemId, payload[k]))
  }

  /**
   * `record_result`. `decode` is `json.loads` on the payload text (`None`
   * when it raises); `idQueryOk` says whether the `id__in` query accepts the
   * sent ids as keys; `serializerOk` whether the result serializer's field
   * validation passes. Only a fully valid post writes anything.
   */
  method RecordResult(store: QualityStore, itemId: string, data: Record, payloadField: PayloadField,
    decode: string -> Option<seq<Record>>, idQueryOk: bool, serializerOk: bool,
    user: string, resultId: string, ids: nat -> string) returns (reply: RecordReply)
    requires store.Valid()
    requires resultId !in store.results && FreshIds(ids, store.resultDetails.Keys)
    modifies store
    ensures store.Valid()
    ensures var decoded := decode(PayloadSource(payloadField));
      && (itemId !in old(store.items) ==> reply == ItemNotFound)
      && (itemId in old(store.items) && decoded.None? ==> reply == MalformedPayload)
      && (reply.InvalidDetailId? ==> (decoded.Some? && idQueryOk && !AllKnown(old(store.details), itemId, decoded.value)))
      && (reply.Recorded? <==>
           (itemId in old(store.items) && decoded.Some? && idQueryOk && serializerOk
            && AllKnown(old(store.details), itemId, decoded.value)))
      && (reply.Recorded? ==>
           (reply.message == RecordedMessage(old(store.items)[itemId])
            && store.results == old(store.results)[resultId := InspectionResult(itemId, Some(user), ResultDefaults + ResultAttrs(data))]
            && store.resultDetails == old(store.resultDetails)
                 + CreatedResultDetails(resultId, DetailsFor(old(store.details), itemId, decoded.value), ids)))
    ensures !reply.Recorded? ==> store.results == old(store.results) && store.resultDetails == old(store.resultDetails)
    ensures store.items == old(store.items) && store.details == old(store.details)
  {
    if itemId !in store.items {
      return ItemNotFound;
    }
    var decoded := decode(PayloadSource(payloadField));
    if decoded.None? {
      return MalformedPayload;
    }
    if !idQueryOk {
      return RecordFailed;
    }
    var built := BuildDetails(store.details, itemId, decoded.value);
    if built.UnknownId? {
      return InvalidDetailId(built.id);
    }
    if !serializerOk {
      return RecordFailed;
    }
    assert built.inputs == DetailsFor(store.details, itemId, decoded.value);
    var item := store.items[itemId];
    store.CreateResult(itemId, user, ResultAttrs(data), built.inputs, resultId, ids);
    return Recorded(RecordedMessage(item));
  }

  /** A recorded result gets exactly one new detail per payload entry. */
  lemma RecordedDetailCount(details: map<string, MeasurementDetail>, itemId: string, payload: seq<Record>,
    resultId: string, ids: nat -> string, taken: set<string>)
    requires AllKnown(details, itemId, payload) && FreshIds(ids, taken)
    ensures |CreatedResultDetails(resultId, DetailsFor(details, itemId, payload), ids)| == |payload|
    ensures CreatedResultDetails(resultId, DetailsFor(details, itemId, payload), ids).Keys * taken == {}
  {
    var inputs := DetailsFor(details, itemId, payload);
    CreatedResultDetailsArePayload(resultId, inputs, ids, taken);
    IdsBelowFresh(ids, taken, |inputs|, |inputs|);
  }

  // ---------------------------------------------------------------------
  // The success-message mixin
  // ---------------------------------------------------------------------

  /** The answers of `destroy`. */
  datatype DestroyReply = Destroyed(message: string) | DestroyRefused(message: string) | DestroyNotFound

  function DestroyStatus(r: DestroyReply): (code: int)
    ensures r.Destroyed? <==> code == 200
    ensures r.DestroyRefused? <==> code == 400
    ensures r.DestroyNotFound? <==> code == 404
  {
    match r
    case Destroyed(_) => 200
    case DestroyRefused(_) => 400
    case DestroyNotFound => 404
  }

  /**
   * Deleting an item is refused (`ProtectedError`) while a result records
   * it, or while a result detail records one of the details the delete
   * would cascade to.
   */
  predicate ItemProtected(details: map<string, MeasurementDetail>, results: map<string, InspectionResult>,
    resultDetails: map<string, ResultDetail>, itemId: string)
  {
    (exists rid :: rid in results && results[rid].itemId == itemId)
    || Referenced(resultDetails, ItemDetailIds(details, itemId))
  }

  /**
   * The rows left once a parent and its `on_delete=CASCADE` children are
   * gone: `parentOf` names the key of a row's parent.
   */
  function Cascaded<T>(rows: map<string, T>, parentOf: T -> string, parent: string): (r: map<string, T>)
    ensures forall id :: id in r <==> id in rows && parentOf(rows[id]) != parent
    ensures forall id :: id in r ==> r[id] == rows[id]
  {
    map id | id in rows && parentOf(rows[id]) != parent :: rows[id]
  }

  function ItemOf(d: MeasurementDetail): string { d.itemId }
  function ResultOf(d: ResultDetail): string { d.resultId }

  /** `destroy` on an inspection item: 404 for an unknown key, 400 and nothing deleted when protected, else the item and its details go. */
  method DestroyItem(store: QualityStore, itemId: string) returns (reply: DestroyReply)
    requires store.Valid()
    modifies store
    ensures store.Valid()
    ensures reply.DestroyNotFound? <==> itemId !in old(store.items)
    ensures reply.DestroyNotFound? ==> store.items == old(store.items) && store.details == old(store.details)
    ensures reply.DestroyRefused? <==> itemId in old(store.items) && ItemProtected(old(store.details), old(store.results), old(store.resultDetails), itemId)
    ensures reply.DestroyRefused? ==>
      reply.message == "この" + ItemVerboseName + "は実績データが関連付けられているため削除できません。"
      && store.items == old(store.items) && store.details == old(store.details)
    ensures reply.Destroyed? ==>
      reply.message == ItemVerboseName + "「" + ItemText(old(store.items)[itemId]) + "」を削除しました。"
      && store.items == old(store.items) - {itemId}
      && store.details == Cascaded(old(store.details), ItemOf, itemId)
    ensures store.results == old(store.results) && store.resultDetails == old(store.resultDetails)
  {
    if itemId !in store.items {
      return DestroyNotFound;
    }
    var repr := ItemText(store.items[itemId]);
    if ItemProtected(store.details, store.results, store.resultDetails, itemId) {
      return DestroyRefused("この" + ItemVerboseName + "は実績データが関連付けられているため削除できません。");
    }
    store.items := store.items - {itemId};
    store.details := Cascaded(store.details, ItemOf, itemId);
    return Destroyed(ItemVerboseName + "「" + repr + "」を削除しました。");
  }

  /** `destroy` on an inspection result: 404 for an unknown key; otherwise nothing protects a result, so it and its details go. */
  method DestroyResult(store: QualityStore, resultId: string) returns (reply: DestroyReply)
    requires store.Valid()
    modifies store
    ensures store.Valid()
    ensures store.items == old(store.items) && store.details == old(store.details)
    ensures resultId !in old(store.results) ==> (reply == DestroyNotFound
      && store.results == old(store.results) && store.resultDetails == old(store.resultDetails))
    ensures resultId in old(store.results) ==>
      var result := old(store.results)[resultId];
      && result.itemId in old(store.items)
      && reply == Destroyed(ResultVerboseName + "「" + ResultText(resultId, old(store.items)[result.itemId], result) + "」を削除しました。")
      && store.results == old(store.results) - {resultId}
      && store.resultDetails == Cascaded(old(store.resultDetails), ResultOf, resultId)
  {
    if resultId !in store.results {
      return DestroyNotFound;
    }
    var result := store.results[resultId];
    var repr := ResultText(resultId, store.items[result.itemId], result);
    store.results := store.results - {resultId};
    store.resultDetails := Cascaded(store.resultDetails, ResultOf, resultId);
    return Destroyed(ResultVerboseName + "「" + repr + "」を削除しました。");
  }
}
