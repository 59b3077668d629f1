/**
 * The mobile location-transfer page
 * (frontend/src/pages/mobile/MobileLocationTransferPage.tsx): a warehouse
 * and a source location find the stock on one shelf; a modal picks one item
 * and moves a quantity of it to a target location in the same warehouse.
 * Its QR dispatcher writes the three location inputs or navigates.
 */
module MobileLocationTransfer {
  import opened Common
  import opened Json
  import opened MobileScan

  datatype Step = Selection | Transfer

  /** The modal's state object. */
  datatype ModalState = ModalState(
    isOpen: bool,
    step: Step,
    items: seq<Record>,
    selectedItem: Option<Record>,
    transferQuantity: Value,
    targetLocation: Value,
    message: Message)

  const InitialModal := ModalState(false, Selection, [], None, Str(""), Str(""), NoMessage)

  // ---------------------------------------------------------------------
  // The QR dispatcher
  // ---------------------------------------------------------------------

  /** What a resolved scan does on this page. */
  datatype TransferAction =
    | ApplyFields(fields: Record)
    | NavigateTo(target: string, state: Option<Record>)
    | LegacyFields(fields: Record)
    | UseDefault

  /**
   * `location_transfer` and its alias `update_fields` apply `payload ||
   * updateFields`; `navigate` navigates; an unhandled result with
   * `updateFields` takes the legacy path.
   */
  function TransferDecision(f: ScanResult): TransferAction
  {
    if (f.action == Some("location_transfer") || f.action == Some("update_fields"))
       && (f.payload.Some? || f.updateFields.Some?)
    then ApplyFields(if f.payload.Some? then f.payload.value else f.updateFields.value)
    else if f.action == Some("navigate") && Given(f.navigate) then NavigateTo(f.navigate.value, f.state)
    else if f.updateFields.Some? then LegacyFields(f.updateFields.value)
    else UseDefault
  }

  /** The two field actions are aliases: they decide the same for the same members. */
  lemma FieldActionsAlike(f: ScanResult)
    ensures TransferDecision(f.(action := Some("location_transfer"))) == TransferDecision(f.(action := Some("update_fields")))
  {
  }

  /** The payload takes precedence over `updateFields` when both are present. */
  lemma PayloadFirst(f: ScanResult)
    requires f.action == Some("location_transfer") && f.payload.Some?
    ensures TransferDecision(f) == ApplyFields(f.payload.value)
  {
  }

  /**
   * The effects of one decision as the page is written: the inner
   * `let handled` of the legacy path shadows the outer flag, so the default
   * setter still runs after the fields were applied.
   */
  function TransferEffects(d: TransferAction, hasSetter: bool, decodedText: string): (e: seq<Effect>)
    ensures d.ApplyFields? ==> e == []
    ensures d.NavigateTo? ==> e == [Navigated(d.target, d.state)]
    ensures d.LegacyFields? || d.UseDefault? ==> e == DefaultEffect(hasSetter, decodedText)
  {
    match d
    case ApplyFields(_) => []
    case NavigateTo(t, s) => [Navigated(t, s)]
    case _ => DefaultEffect(hasSetter, decodedText)
  }

  /**
   * A legacy result with fields and a default setter does two things:
   * it writes the fields and calls the setter with the scanned text.
   */
  lemma LegacyPathAlsoCallsSetter(f: ScanResult, decodedText: string)
    requires f.action.None? && f.updateFields.Some?
    ensures TransferDecision(f) == LegacyFields(f.updateFields.value)
    ensures TransferEffects(TransferDecision(f), true, decodedText) == [SetterCalled(decodedText)]
  {
  }

  /** The effects the legacy path evidently intends: once the fields are applied, the scan is handled. */
  function IntendedTransferEffects(d: TransferAction, hasSetter: bool, decodedText: string): (e: seq<Effect>)
    ensures d.ApplyFields? || d.LegacyFields? ==> e == []
    ensures d.NavigateTo? ==> e == [Navigated(d.target, d.state)]
    ensures d.UseDefault? ==> e == DefaultEffect(hasSetter, decodedText)
  {
    match d
    case NavigateTo(t, s) => [Navigated(t, s)]
    case UseDefault => DefaultEffect(hasSetter, decodedText)
    case _ => []
  }

  /**
   * With the intended flag, a scan writes fields or calls the setter, never
   * both, and both versions agree on every result that is not legacy.
   */
  lemma IntendedIsOneOutcome(f: ScanResult, hasSetter: bool, decodedText: string)
    ensures var d := TransferDecision(f);
      (d.ApplyFields? || d.LegacyFields?) ==> IntendedTransferEffects(d, hasSetter, decodedText) == []
    ensures var d := TransferDecision(f);
      !d.LegacyFields? ==> IntendedTransferEffects(d, hasSetter, decodedText) == TransferEffects(d, hasSetter, decodedText)
  {
  }

  // ---------------------------------------------------------------------
  // Find items
  // ---------------------------------------------------------------------

  /** How the by-location request ends. */
  datatype FindOutcome = Items(items: seq<Record>) | FindFailed(message: string)

  /** The modal after the by-location answer listed some items. */
  function ModalForItems(prev: ModalState, items: seq<Record>): (m: ModalState)
    requires |items| > 0
    ensures m.isOpen && m.items == items
    ensures |items| == 1 ==> m.step == Transfer && m.selectedItem == Some(items[0])
    ensures |items| > 1 ==> m.step == Selection && m.selectedItem.None?
    ensures m.transferQuantity == prev.transferQuantity && m.targetLocation == prev.targetLocation
    ensures m.message == prev.message
  {
    if |items| == 1 then prev.(isOpen := true, step := Transfer, items := items, selectedItem := Some(items[0]))
    else prev.(isOpen := true, step := Selection, items := items, selectedItem := None)
  }

  /** The transfer request body; `None` quantity is NaN, sent as `null`. */
  datatype TransferRequest = TransferRequest(
    itemId: Option<Value>,
    quantityToMove: Option<int>,
    targetWarehouse: Value,
    targetLocation: Value)

  datatype TransferOutcome =
    | TransferAnswered(ok: bool, success: bool, message: string, error: Option<string>)
    | TransferNetworkError

  datatype TransferCheck = MissingInput | OverQuantity | TransferOk(quantity: Option<int>)

  /**
   * The client checks: quantity and target must be truthy, and the parsed
   * quantity must not exceed the item's quantity (a NaN on either side
   * passes the comparison).
   */
  function TransferValidation(m: ModalState, item: Record): TransferCheck
  {
    var qty := ParseValue(m.transferQuantity);
    var onHand := NumField(item, "quantity");
    if !ValueTruthy(m.transferQuantity) || !ValueTruthy(m.targetLocation) then MissingInput
    else if qty.Some? && onHand.Some? && qty.value > onHand.value then OverQuantity
    else TransferOk(qty)
  }

  /**
   * The client does not require a number: a quantity that does not parse
   * is let through and sent as NaN; so is a zero or negative one.
   */
  lemma NonNumericQuantityPasses(m: ModalState, item: Record)
    requires m.transferQuantity == Str("abc") && ValueTruthy(m.targetLocation)
    ensures TransferValidation(m, item) == TransferOk(None)
  {
    var t := "abc";
    assert t[0] == 'a' && !IsSpace(t[0]) && !IsDigit(t[0]);
    TrimStartUnpadded(t);
    assert DigitPrefix(t) == [];
    assert SignedDigits(t) == None;
    assert ParseValue(m.transferQuantity) == None;
  }

  /** An accepted numeric quantity never exceeds the quantity on hand. */
  lemma TransferOkWithinStock(m: ModalState, item: Record)
    requires TransferValidation(m, item).TransferOk? && TransferValidation(m, item).quantity.Some?
    requires NumField(item, "quantity").Some?
    ensures TransferValidation(m, item).quantity.value <= NumField(item, "quantity").value
    ensures ValueTruthy(m.transferQuantity) && ValueTruthy(m.targetLocation)
  {
  }

  class LocationTransferPage {
    var warehouse: Value
    var sourceLocation: Value
    var isLoading: bool
    var message: Message
    var modal: ModalState
    /** The setter calls and navigations the page has made, oldest first. */
    var effects: seq<Effect>

    constructor ()
      ensures warehouse == Str("MAIN-WH") && sourceLocation == Str("")
      ensures !isLoading && message == NoMessage && modal == InitialModal && effects == []
    {
      warehouse := Str("MAIN-WH");
      sourceLocation := Str("");
      isLoading := false;
      message := NoMessage;
      modal := InitialModal;
      effects := [];
    }

    /** Writes the members of a fields record that are defined; other keys are ignored. */
    method ApplyFieldRecord(fields: Record)
      modifies this
      ensures sourceLocation == (if "sourceLocation" in fields then fields["sourceLocation"] else old(sourceLocation))
      ensures warehouse == (if "warehouse" in fields then fields["warehouse"] else old(warehouse))
      ensures modal == (if "targetLocation" in fields then old(modal).(targetLocation := fields["targetLocation"]) else old(modal))
      ensures message == old(message) && isLoading == old(isLoading) && effects == old(effects)
    {
      if "sourceLocation" in fields {
        sourceLocation := fields["sourceLocation"];
      }
      if "warehouse" in fields {
        warehouse := fields["warehouse"];
      }
      if "targetLocation" in fields {
        modal := modal.(targetLocation := fields["targetLocation"]);
      }
    }

    /**
     * `handleQrCodeResult`: 404 calls the default setter; another failure
     * sets the error message; a resolved scan applies `TransferDecision`
     * with the effects `IntendedTransferEffects` gives, the legacy path
     * counting as handled (see `LegacyPathAlsoCallsSetter` for the page as
     * written).
     */
    method HandleQrCodeResult(decodedText: string, hasSetter: bool, reply: ScanReply)
      modifies this
      ensures !isLoading
      ensures reply.NotFound? ==> message == NoMessage && effects == old(effects) + DefaultEffect(hasSetter, decodedText)
      ensures reply.ErrorStatus? || reply.NetworkFailure? ==>
        (message == Message(ScanErrorText(reply), "error") && effects == old(effects))
      ensures !reply.Resolved? ==>
        (warehouse == old(warehouse) && sourceLocation == old(sourceLocation) && modal == old(modal))
      ensures reply.Resolved? ==>
        (message == NoMessage
         && effects == old(effects) + IntendedTransferEffects(TransferDecision(ResultFields(reply.result)), hasSetter, decodedText))
      ensures reply.Resolved? ==>
        (var d := TransferDecision(ResultFields(reply.result));
         if d.ApplyFields? || d.LegacyFields? then
           sourceLocation == (if "sourceLocation" in d.fields then d.fields["sourceLocation"] else old(sourceLocation))
           && warehouse == (if "warehouse" in d.fields then d.fields["warehouse"] else old(warehouse))
           && modal == (if "targetLocation" in d.fields then old(modal).(targetLocation := d.fields["targetLocation"]) else old(modal))
         else
           warehouse == old(warehouse) && sourceLocation == old(sourceLocation) && modal == old(modal))
    {
      isLoading := true;
      message := NoMessage;
      match reply {
        case NotFound =>
          if hasSetter {
            effects := effects + [SetterCalled(decodedText)];
          }
        case ErrorStatus(_, _) =>
          message := Message(ScanErrorText(reply), "error");
        case NetworkFailure(_) =>
          message := Message(ScanErrorText(reply), "error");
        case Resolved(result) =>
          var f := ResultFields(result);
          var handled := false;
          if f.action.Some? && f.action.value != "" {
            if f.action.value == "location_transfer" || f.action.value == "update_fields" {
              var fields := if f.payload.Some? then f.payload else f.updateFields;
              if fields.Some? {
                ApplyFieldRecord(fields.value);
                handled := true;
              }
            } else if f.action.value == "navigate" {
              if Given(f.navigate) {
                effects := effects + [Navigated(f.navigate.value, f.state)];
                handled := true;
              }
            }
          }
          // the legacy result format, which handles the scan
          if !handled && f.updateFields.Some? {
            ApplyFieldRecord(f.updateFields.value);
            handled := true;
          }
          if !handled && hasSetter {
            effects := effects + [SetterCalled(decodedText)];
          }
      }
      isLoading := false;
    }

    /**
     * "Next": a blank warehouse or source location is refused with no
     * request; otherwise the main message is cleared and the by-location
     * query is returned.
     */
    method HandleFindItems() returns (query: Option<seq<Param>>)
      modifies this
      ensures !(ValueTruthy(old(warehouse)) && ValueTruthy(old(sourceLocation))) ==>
        (query.None? && message == Message("倉庫と移動元棚番を入力してください。", "error") && isLoading == old(isLoading))
      ensures ValueTruthy(old(warehouse)) && ValueTruthy(old(sourceLocation)) ==>
        (query == Some([Param("warehouse", ValueText(warehouse)), Param("location", ValueText(sourceLocation))])
         && isLoading && message == NoMessage)
      ensures warehouse == old(warehouse) && sourceLocation == old(sourceLocation) && modal == old(modal)
      ensures effects == old(effects)
    {
      if !ValueTruthy(warehouse) || !ValueTruthy(sourceLocation) {
        message := Message("倉庫と移動元棚番を入力してください。", "error");
        return None;
      }
      isLoading := true;
      message := NoMessage;
      query := Some([Param("warehouse", ValueText(warehouse)), Param("location", ValueText(sourceLocation))]);
    }

    /** The by-location answer: no items is an error, one goes straight to the transfer step, more to selection. */
    method FinishFindItems(outcome: FindOutcome)
      modifies this
      ensures !isLoading
      ensures outcome.FindFailed? ==> message == Message("エラー: " + outcome.message, "error") && modal == old(modal)
      ensures outcome.Items? && |outcome.items| == 0 ==>
        message == Message("その棚番に移動可能な在庫が見つかりません。", "error") && modal == old(modal)
      ensures outcome.Items? && |outcome.items| > 0 ==>
        message == old(message) && modal == ModalForItems(old(modal), outcome.items)
      ensures warehouse == old(warehouse) && sourceLocation == old(sourceLocation) && effects == old(effects)
    {
      match outcome {
        case FindFailed(text) =>
          message := Message("エラー: " + text, "error");
        case Items(items) =>
          if |items| == 0 {
            message := Message("その棚番に移動可能な在庫が見つかりません。", "error");
          } else if |items| == 1 {
            modal := modal.(isOpen := true, step := Transfer, items := items, selectedItem := Some(items[0]));
          } else {
            modal := modal.(isOpen := true, step := Selection, items := items, selectedItem := None);
          }
      }
      isLoading := false;
    }

    /** Choosing an item in the selection step. */
    method HandlePartSelect(item: Record)
      modifies this
      ensures modal == old(modal).(step := Transfer, selectedItem := Some(item), message := NoMessage)
      ensures warehouse == old(warehouse) && sourceLocation == old(sourceLocation) && message == old(message)
      ensures effects == old(effects)
    {
      modal := modal.(step := Transfer, selectedItem := Some(item), message := NoMessage);
    }

    /** The two modal inputs, `transferQuantity` and `targetLocation`. */
    method HandleModalFormChange(name: string, value: string)
      modifies this
      ensures name == "transferQuantity" ==> modal == old(modal).(transferQuantity := Str(value))
      ensures name == "targetLocation" ==> modal == old(modal).(targetLocation := Str(value))
      ensures name != "transferQuantity" && name != "targetLocation" ==> modal == old(modal)
      ensures warehouse == old(warehouse) && sourceLocation == old(sourceLocation) && effects == old(effects)
    {
      if name == "transferQuantity" {
        modal := modal.(transferQuantity := Str(value));
      } else if name == "targetLocation" {
        modal := modal.(targetLocation := Str(value));
      }
    }

    method CloseModal()
      modifies this
      ensures modal == InitialModal
      ensures warehouse == old(warehouse) && sourceLocation == old(sourceLocation) && message == old(message)
      ensures effects == old(effects)
    {
      modal := InitialModal;
    }

    /**
     * "Move": a missing quantity or target sets the modal message; past
     * that check, without a selected item the handler throws before
     * changing anything; a quantity over the stock sets the modal message;
     * otherwise the request moves within the current warehouse.
     */
    method HandleExecuteTransfer() returns (request: Option<TransferRequest>)
      modifies this
      ensures !ValueTruthy(old(modal).transferQuantity) || !ValueTruthy(old(modal).targetLocation) ==>
        (request.None? && modal == old(modal).(message := Message("移動数量と移動先棚番を入力してください。", "error")))
      ensures old(modal).selectedItem.None? && ValueTruthy(old(modal).transferQuantity) && ValueTruthy(old(modal).targetLocation) ==>
        (request.None? && modal == old(modal) && isLoading == old(isLoading))
      ensures old(modal).selectedItem.Some? && TransferValidation(old(modal), old(modal).selectedItem.value) == MissingInput ==>
        (request.None? && modal == old(modal).(message := Message("移動数量と移動先棚番を入力してください。", "error")))
      ensures old(modal).selectedItem.Some? && TransferValidation(old(modal), old(modal).selectedItem.value) == OverQuantity ==>
        (request.None? && modal == old(modal).(message := Message("移動数量が現在数量を超えています。", "error")))
      ensures old(modal).selectedItem.Some? && TransferValidation(old(modal), old(modal).selectedItem.value).TransferOk? ==>
        (isLoading && modal == old(modal).(message := NoMessage)
         && request == Some(TransferRequest(
              Lookup(old(modal).selectedItem.value, "id"),
              TransferValidation(old(modal), old(modal).selectedItem.value).quantity,
              old(warehouse),
              old(modal).targetLocation)))
      ensures warehouse == old(warehouse) && sourceLocation == old(sourceLocation) && message == old(message)
      ensures effects == old(effects)
    {
      if !ValueTruthy(modal.transferQuantity) || !ValueTruthy(modal.targetLocation) {
        modal := modal.(message := Message("移動数量と移動先棚番を入力してください。", "error"));
        return None;
      }
      if modal.selectedItem.None? {
        return None;
      }
      var item := modal.selectedItem.value;
      var qty := ParseValue(modal.transferQuantity);
      var onHand := NumField(item, "quantity");
      if qty.Some? && onHand.Some? && qty.value > onHand.value {
        modal := modal.(message := Message("移動数量が現在数量を超えています。", "error"));
        return None;
      }
      isLoading := true;
      modal := modal.(message := NoMessage);
      request := Some(TransferRequest(Lookup(item, "id"), qty, warehouse, modal.targetLocation));
    }

    /** The answer to the move request, shown in the modal. */
    method FinishTransfer(outcome: TransferOutcome)
      modifies this
      ensures !isLoading
      ensures outcome.TransferNetworkError? ==> modal == old(modal).(message := Message("サーバーとの通信に失敗しました。", "error"))
      ensures outcome.TransferAnswered? && outcome.ok && outcome.success ==>
        modal == old(modal).(message := Message(outcome.message, "success"))
      ensures outcome.TransferAnswered? && !(outcome.ok && outcome.success) ==>
        modal == old(modal).(message := Message(OptOrElse(outcome.error, "不明なエラーが発生しました。"), "error"))
      ensures warehouse == old(warehouse) && sourceLocation == old(sourceLocation) && message == old(message)
      ensures effects == old(effects)
    {
      match outcome {
        case TransferNetworkError =>
          modal := modal.(message := Message("サーバーとの通信に失敗しました。", "error"));
        case TransferAnswered(ok, success, text, err) =>
          if ok && success {
            modal := modal.(message := Message(text, "success"));
          } else {
            modal := modal.(message := Message(OptOrElse(err, "不明なエラーが発生しました。"), "error"));
          }
      }
      isLoading := false;
    }
  }
}
