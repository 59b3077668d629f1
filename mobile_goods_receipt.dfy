/**
 * The mobile goods-receipt page (frontend/src/pages/mobile/MobileGoodsReceiptPage.tsx):
 * pending purchase orders filtered by one search term, a receipt form, and
 * a QR dispatcher that opens the form, navigates, sets the search term or
 * merges fields into the form. It has no legacy fallback.
 */
module MobileGoodsReceipt {
  import opened Common
  import opened Json
  import opened MobileScan

  /** The list query: `search_q` only for a non-empty term, then always `search_status=pending`. */
  function PurchaseOrderQuery(searchTerm: string): (ps: seq<Param>)
    ensures 1 <= |ps| <= 2 && ps[|ps| - 1] == Param("search_status", "pending")
    ensures ValuesOf(ps, "search_status") == ["pending"]
    ensures ValuesOf(ps, "search_q") == (if searchTerm != "" then [searchTerm] else [])
  {
    var search := if searchTerm != "" then [Param("search_q", searchTerm)] else [];
    ValuesOfAppend(search, [Param("search_status", "pending")], "search_q");
    ValuesOfAppend(search, [Param("search_status", "pending")], "search_status");
    search + [Param("search_status", "pending")]
  }

  /** `order.quantity - order.received_quantity`; `None` is NaN. */
  function Remaining(order: Record): Option<int>
  {
    var q := NumField(order, "quantity");
    var r := NumField(order, "received_quantity");
    if q.Some? && r.Some? then Some(q.value - r.value) else None
  }

  const EmptyForm: Record := map["received_quantity" := Str(""), "location" := Str(""), "warehouse" := Str("")]

  /** The form `openReceiptForm` fills in: the remaining quantity when positive, else blank. */
  function ReceiptForm(order: Record): (form: Record)
    ensures form.Keys == {"received_quantity", "location", "warehouse"}
    ensures form["location"] == FieldOrBlank(order, "location")
    ensures form["warehouse"] == FieldOrBlank(order, "warehouse")
    ensures Remaining(order).Some? && Remaining(order).value > 0 ==>
      form["received_quantity"] == Str(NatToString(Remaining(order).value))
    ensures !(Remaining(order).Some? && Remaining(order).value > 0) ==> form["received_quantity"] == Str("")
  {
    var remaining := Remaining(order);
    map[
      "received_quantity" := (if remaining.Some? && remaining.value > 0 then Str(NatToString(remaining.value)) else Str("")),
      "location" := FieldOrBlank(order, "location"),
      "warehouse" := FieldOrBlank(order, "warehouse")
    ]
  }

  /** What a resolved scan does on this page. */
  datatype ReceiptAction =
    | OpenReceipt(order: Record)
    | NavigateTo(target: string, state: Option<Record>)
    | SetSearch(term: string)
    | MergeFields(fields: Record)
    | UseDefault

  /** The switch on `action`; anything it does not handle goes straight to the default setter. */
  function ReceiptDecision(f: ScanResult): ReceiptAction
  {
    if f.action == Some("goods_receipt") && f.payload.Some? then OpenReceipt(f.payload.value)
    else if f.action == Some("navigate") && Given(f.navigate) then NavigateTo(f.navigate.value, f.state)
    else if f.action == Some("update_search") && Given(f.updateSearch) then SetSearch(f.updateSearch.value)
    else if f.action == Some("update_fields") && f.updateFields.Some? then MergeFields(f.updateFields.value)
    else UseDefault
  }

  /**
   * No legacy fallback: a result without a recognised action calls the
   * default setter even when it carries `updateSearch` or `updateFields`.
   */
  lemma NoLegacyFallback(f: ScanResult)
    requires f.action.None? || f.action.value !in {"goods_receipt", "navigate", "update_search", "update_fields"}
    ensures ReceiptDecision(f) == UseDefault
  {
  }

  /** The default setter runs exactly when no case of the switch handled the result. */
  lemma DefaultOnlyWhenUnhandled(f: ScanResult)
    ensures ReceiptDecision(f) == UseDefault <==>
      !(f.action == Some("goods_receipt") && f.payload.Some?)
      && !(f.action == Some("navigate") && Given(f.navigate))
      && !(f.action == Some("update_search") && Given(f.updateSearch))
      && !(f.action == Some("update_fields") && f.updateFields.Some?)
  {
  }

  /** `{...prev, ...updateFields}`. */
  function MergeInto(prev: Record, fields: Record): (r: Record)
    ensures r.Keys == prev.Keys + fields.Keys
    ensures forall k :: k in fields ==> r[k] == fields[k]
    ensures forall k :: k in prev && k !in fields ==> r[k] == prev[k]
  {
    prev + fields
  }

  /** Every key of `updateFields` lands in the form, including keys the form did not have. */
  lemma MergeAddsUnknownKeys(prev: Record, fields: Record, k: string)
    requires k in fields && k !in prev
    ensures k in MergeInto(prev, fields) && MergeInto(prev, fields)[k] == fields[k]
    ensures prev.Keys < MergeInto(prev, fields).Keys
  {
  }

  /** Merging the same fields twice is merging them once. */
  lemma MergeIdempotent(prev: Record, fields: Record)
    ensures MergeInto(MergeInto(prev, fields), fields) == MergeInto(prev, fields)
  {
  }

  /** The external effects of one decision: at most one per scan. */
  function ReceiptEffects(d: ReceiptAction, hasSetter: bool, decodedText: string): (e: seq<Effect>)
    ensures |e| <= 1
    ensures d.NavigateTo? ==> e == [Navigated(d.target, d.state)]
    ensures d.UseDefault? ==> e == DefaultEffect(hasSetter, decodedText)
    ensures !d.NavigateTo? && !d.UseDefault? ==> e == []
  {
    match d
    case NavigateTo(t, s) => [Navigated(t, s)]
    case UseDefault => DefaultEffect(hasSetter, decodedText)
    case _ => []
  }

  // ---------------------------------------------------------------------
  // Submit validation
  // ---------------------------------------------------------------------

  /** `parseInt` of a form member; a missing member is `undefined`, hence NaN. */
  function ParseFormValue(form: Record, key: string): (r: Option<int>)
    ensures key in form ==> r == ParseValue(form[key])
    ensures key !in form ==> r.None?
  {
    if key in form then ParseValue(form[key]) else None
  }

  datatype ReceiptCheck = NotPositive | OverRemaining | ReceiptOk(quantity: int)

  /** The quantity must parse to at least 1 and, against a selected order, not pass the remaining quantity. */
  function ReceiptValidation(form: Record, selectedOrder: Option<Record>): ReceiptCheck
  {
    var qty := ParseFormValue(form, "received_quantity");
    if qty.None? || qty.value <= 0 then NotPositive
    else if selectedOrder.Some? && Remaining(selectedOrder.value).Some? && qty.value > Remaining(selectedOrder.value).value then OverRemaining
    else ReceiptOk(qty.value)
  }

  /** An accepted quantity is at least 1 and within what the selected order still expects. */
  lemma ReceiptOkBounds(form: Record, order: Record)
    requires Remaining(order).Some?
    ensures ReceiptValidation(form, Some(order)).ReceiptOk? <==>
      ParseFormValue(form, "received_quantity").Some?
      && 1 <= ParseFormValue(form, "received_quantity").value <= Remaining(order).value
  {
  }

  /** The form an order opens with is accepted as is whenever something remains to receive. */
  lemma OpenedFormAccepted(order: Record)
    requires Remaining(order).Some? && Remaining(order).value > 0
    ensures ReceiptValidation(ReceiptForm(order), Some(order)) == ReceiptOk(Remaining(order).value)
  {
    ParseIntOfIntToString(Remaining(order).value);
  }

  /** With nothing left to receive, the opened form is refused before any request. */
  lemma OpenedFormRefusedWhenNothingLeft(order: Record)
    requires !(Remaining(order).Some? && Remaining(order).value > 0)
    ensures ReceiptValidation(ReceiptForm(order), Some(order)) == NotPositive
  {
    assert ParseInt("") == None;
  }

  /** The request body of a receipt, location and warehouse trimmed. */
  datatype ReceiptRequest = ReceiptRequest(purchaseOrderId: Option<Value>, receivedQuantity: int, location: string, warehouse: string)

  datatype ReceiptOutcome =
    | ReceiptAnswered(ok: bool, orderNumber: string, error: Option<string>)
    | ReceiptNetworkError

  const CommunicationError := "入庫処理中に通信エラーが発生しました。"

  class GoodsReceiptPage {
    var searchTerm: string
    var selectedOrder: Option<Record>
    var receiptFormData: Record
    var formError: string
    var formSuccess: string
    var isLoading: bool
    var error: Option<string>
    /** The setter calls and navigations the page has made, oldest first. */
    var effects: seq<Effect>

    constructor ()
      ensures searchTerm == "" && selectedOrder.None? && receiptFormData == EmptyForm
      ensures formError == "" && formSuccess == "" && isLoading && error.None? && effects == []
    {
      searchTerm := "";
      selectedOrder := None;
      receiptFormData := EmptyForm;
      formError := "";
      formSuccess := "";
      isLoading := true;
      error := None;
      effects := [];
    }

    method OpenReceiptForm(order: Record)
      modifies this
      ensures selectedOrder == Some(order) && receiptFormData == ReceiptForm(order)
      ensures formError == "" && formSuccess == ""
      ensures searchTerm == old(searchTerm) && isLoading == old(isLoading) && error == old(error)
      ensures effects == old(effects)
    {
      var remaining := Remaining(order);
      selectedOrder := Some(order);
      receiptFormData := map[
        "received_quantity" := (if remaining.Some? && remaining.value > 0 then Str(NatToString(remaining.value)) else Str("")),
        "location" := FieldOrBlank(order, "location"),
        "warehouse" := FieldOrBlank(order, "warehouse")
      ];
      formError := "";
      formSuccess := "";
    }

    /**
     * `handleQrCodeResult`: 404 calls the default setter; another failure
     * sets the error; a resolved scan does what `ReceiptDecision` says.
     */
    method HandleQrCodeResult(decodedText: string, hasSetter: bool, reply: ScanReply)
      modifies this
      ensures !isLoading
      ensures reply.NotFound? ==> error.None? && effects == old(effects) + DefaultEffect(hasSetter, decodedText)
      ensures reply.ErrorStatus? || reply.NetworkFailure? ==>
        (error == Some(ScanErrorText(reply)) && effects == old(effects))
      ensures !reply.Resolved? ==>
        (searchTerm == old(searchTerm) && selectedOrder == old(selectedOrder)
         && receiptFormData == old(receiptFormData))
      ensures reply.Resolved? ==>
        (error.None?
         && effects == old(effects) + ReceiptEffects(ReceiptDecision(ResultFields(reply.result)), hasSetter, decodedText))
      ensures reply.Resolved? ==>
        (var d := ReceiptDecision(ResultFields(reply.result));
         searchTerm == (if d.SetSearch? then d.term else old(searchTerm))
         && selectedOrder == (if d.OpenReceipt? then Some(d.order) else old(selectedOrder))
         && receiptFormData == (if d.OpenReceipt? then ReceiptForm(d.order)
                                else if d.MergeFields? then MergeInto(old(receiptFormData), d.fields)
                                else old(receiptFormData)))
    {
      isLoading := true;
      error := None;
      match reply {
        case NotFound =>
          if hasSetter {
            effects := effects + [SetterCalled(decodedText)];
          }
        case ErrorStatus(_, _) =>
          error := Some(ScanErrorText(reply));
        case NetworkFailure(_) =>
          error := Some(ScanErrorText(reply));
        case Resolved(result) =>
          var f := ResultFields(result);
          var handled := false;
          if f.action.Some? && f.action.value != "" {
            if f.action.value == "goods_receipt" {
              if f.payload.Some? {
                OpenReceiptForm(f.payload.value);
                handled := true;
              }
            } else if f.action.value == "navigate" {
              if Given(f.navigate) {
                effects := effects + [Navigated(f.navigate.value, f.state)];
                handled := true;
              }
            } else if f.action.value == "update_search" {
              if Given(f.updateSearch) {
                searchTerm := f.updateSearch.value;
                handled := true;
              }
            } else if f.action.value == "update_fields" {
              if f.updateFields.Some? {
                receiptFormData := receiptFormData + f.updateFields.value;
                handled := true;
              }
            }
          }
          if !handled && hasSetter {
            effects := effects + [SetterCalled(decodedText)];
          }
      }
      isLoading := false;
    }

    method CloseReceiptForm()
      modifies this
      ensures selectedOrder.None? && receiptFormData == old(receiptFormData)
      ensures formError == old(formError) && formSuccess == old(formSuccess) && effects == old(effects)
    {
      selectedOrder := None;
    }

    /** An input's change event writes its value under its name. */
    method HandleReceiptFormChange(name: string, value: string)
      modifies this
      ensures receiptFormData == old(receiptFormData)[name := Str(value)]
      ensures selectedOrder == old(selectedOrder) && effects == old(effects)
    {
      receiptFormData := receiptFormData[name := Str(value)];
    }

    /**
     * Submit: both messages are cleared; a rejected quantity sets the form
     * error; building the body throws (and shows the communication error)
     * when no order is selected or location/warehouse is not a string.
     */
    method HandleReceiptSubmit() returns (request: Option<ReceiptRequest>)
      modifies this
      ensures formSuccess == ""
      ensures var check := ReceiptValidation(old(receiptFormData), old(selectedOrder));
        (check == NotPositive ==> (request.None? && formError == "入庫数量は正の整数である必要があります。"))
        && (check == OverRemaining ==> (request.None? && formError == "入庫数量が残数量を超えています。"))
      ensures request.Some? <==>
        ReceiptValidation(old(receiptFormData), old(selectedOrder)).ReceiptOk?
        && old(selectedOrder).Some?
        && "location" in old(receiptFormData) && old(receiptFormData)["location"].Str?
        && "warehouse" in old(receiptFormData) && old(receiptFormData)["warehouse"].Str?
      ensures request.Some? ==>
        formError == ""
        && request.value == ReceiptRequest(
             Lookup(old(selectedOrder).value, "id"),
             ReceiptValidation(old(receiptFormData), old(selectedOrder)).quantity,
             Strip(old(receiptFormData)["location"].s),
             Strip(old(receiptFormData)["warehouse"].s))
      ensures request.None? && ReceiptValidation(old(receiptFormData), old(selectedOrder)).ReceiptOk? ==>
        formError == CommunicationError
      ensures selectedOrder == old(selectedOrder) && receiptFormData == old(receiptFormData)
      ensures effects == old(effects)
    {
      formError := "";
      formSuccess := "";
      var qty := ParseFormValue(receiptFormData, "received_quantity");
      if qty.None? || qty.value <= 0 {
        formError := "入庫数量は正の整数である必要があります。";
        return None;
      }
      if selectedOrder.Some? && Remaining(selectedOrder.value).Some? && qty.value > Remaining(selectedOrder.value).value {
        formError := "入庫数量が残数量を超えています。";
        return None;
      }
      if selectedOrder.None?
        || "location" !in receiptFormData || !receiptFormData["location"].Str?
        || "warehouse" !in receiptFormData || !receiptFormData["warehouse"].Str?
      {
        formError := CommunicationError;
        return None;
      }
      request := Some(ReceiptRequest(
        Lookup(selectedOrder.value, "id"), qty.value,
        Strip(receiptFormData["location"].s), Strip(receiptFormData["warehouse"].s)));
    }

    /** The answer to the receipt request. */
    method FinishReceipt(outcome: ReceiptOutcome)
      modifies this
      ensures outcome.ReceiptNetworkError? ==> formError == CommunicationError && formSuccess == old(formSuccess)
      ensures outcome.ReceiptAnswered? && outcome.ok ==>
        formSuccess == "発注 " + outcome.orderNumber + " の入庫処理が正常に完了しました。" && formError == old(formError)
      ensures outcome.ReceiptAnswered? && !outcome.ok ==>
        formError == OptOrElse(outcome.error, "入庫処理に失敗しました。") && formSuccess == old(formSuccess)
      ensures selectedOrder == old(selectedOrder) && receiptFormData == old(receiptFormData) && effects == old(effects)
    {
      match outcome {
        case ReceiptNetworkError =>
          formError := CommunicationError;
        case ReceiptAnswered(ok, orderNumber, err) =>
          if ok {
            formSuccess := "発注 " + orderNumber + " の入庫処理が正常に完了しました。";
          } else {
            formError := OptOrElse(err, "入庫処理に失敗しました。");
          }
      }
    }
  }
}
