/**
 * The desktop goods-issue page (frontend/src/pages/GoodsIssue.tsx): the
 * pending sales orders, and a modal that checks the quantity to ship before
 * posting it to the sales-order `issue` action.
 */
module GoodsIssuePage {
  import opened Common
  import opened Json
  import opened InventoryModels
  import InventoryViews

  // ---------------------------------------------------------------------
  // The list
  // ---------------------------------------------------------------------

  const StatusKey := "search_status"
  const PendingStatus := "pending"

  /** The list request: `?search_status=pending`. */
  const ListQuery := [Param(StatusKey, PendingStatus)]

  /** The list holds exactly the pending sales orders. */
  lemma ListShowsPendingOrders(so: SalesOrder)
    ensures InventoryViews.SalesOrderListed(so, ListQuery) <==> so.status == PendingStatus
  {
    assert ValuesOf(ListQuery, StatusKey) == [PendingStatus] by {
      assert ListQuery[1..] == [];
    }
    assert |"search_order_number"| != |StatusKey| && |"search_item"| != |StatusKey|;
    assert |"search_warehouse"| != |StatusKey|;
    assert ValuesOf(ListQuery, "search_order_number") == [];
    assert ValuesOf(ListQuery, "search_item") == [];
    assert ValuesOf(ListQuery, "search_warehouse") == [];
  }

  /** The issue button of a row is enabled only while something is left to ship. */
  predicate CanIssue(order: SalesOrder)
  {
    SalesRemaining(order) > 0
  }

  // ---------------------------------------------------------------------
  // The modal
  // ---------------------------------------------------------------------

  /** `openModal`: the remaining quantity when positive, else a blank input. */
  function DefaultIssueQuantity(order: SalesOrder): (text: string)
    ensures CanIssue(order) <==> text != ""
  {
    if SalesRemaining(order) > 0 then IntToString(SalesRemaining(order)) else ""
  }

  const NotPositiveText := "出庫数量は1以上の正の整数である必要があります。"
  const OverRemainingText := "出庫数量が残数量を超えています。"

  datatype IssueCheck = NotPositive | OverRemaining | IssueOk(quantity: int)

  /** `handleIssueSubmit`'s checks: `parseInt` must give a number ≥ 1, and no more than the remaining quantity. */
  function CheckIssue(text: string, order: SalesOrder): (c: IssueCheck)
    ensures c.IssueOk? <==> ParseInt(text).Some? && 1 <= ParseInt(text).value <= SalesRemaining(order)
    ensures c == NotPositive <==> ParseInt(text).None? || ParseInt(text).value <= 0
    ensures c.IssueOk? ==> c.quantity == ParseInt(text).value
  {
    var q := ParseInt(text);
    if q.None? || q.value <= 0 then NotPositive
    else if q.value > SalesRemaining(order) then OverRemaining
    else IssueOk(q.value)
  }

  /** The quantity the modal opens with ships everything that remains. */
  lemma DefaultIssuesRemaining(order: SalesOrder)
    requires CanIssue(order)
    ensures CheckIssue(DefaultIssueQuantity(order), order) == IssueOk(SalesRemaining(order))
  {
    ParseIntOfIntToString(SalesRemaining(order));
  }

  /** An order with nothing left opens with a blank input, which is refused as not positive. */
  lemma DefaultRefusedWhenNothingLeft(order: SalesOrder)
    requires !CanIssue(order)
    ensures CheckIssue(DefaultIssueQuantity(order), order) == NotPositive
  {
  }

  /** The request body: `{order_id, quantity_to_ship}`. */
  datatype IssueRequest = IssueRequest(orderId: string, quantityToShip: int)

  /** How the request ends: an answer of the endpoint, or no answer at all. */
  datatype IssueOutcome = Answered(reply: InventoryViews.Reply) | NetworkFailed

  const IssueDoneText := "出庫処理が正常に完了しました。"
  const IssueErrorText := "エラーが発生しました。"
  const NetworkErrorText := "通信エラーが発生しました。"
  const Danger := "danger"
  const Succeeded := "success"

  /** The modal message of an outcome: `data.message || ...` on success, `data.error || ...` otherwise. */
  function OutcomeMessage(o: IssueOutcome): (m: Message)
    ensures o.Answered? && o.reply.Success? ==> m == Message(OrElse(o.reply.message, IssueDoneText), Succeeded)
    ensures o.Answered? && o.reply.BadRequest? ==> m == Message(OrElse(o.reply.error, IssueErrorText), Danger)
    ensures o.Answered? && !o.reply.Success? && !o.reply.BadRequest? ==> m == Message(IssueErrorText, Danger)
    ensures o.NetworkFailed? ==> m == Message(NetworkErrorText, Danger)
  {
    match o
    case NetworkFailed => Message(NetworkErrorText, Danger)
    case Answered(r) =>
      match r
      case Success(message) => Message(OrElse(message, IssueDoneText), Succeeded)
      case BadRequest(e) => Message(OrElse(e, IssueErrorText), Danger)
      case _ => Message(IssueErrorText, Danger)
  }

  /** The issue action answers 501 with a `message` and no `error`: every accepted submission ends in the generic error. */
  lemma IssueNeverSucceeds(data: Record)
    ensures OutcomeMessage(Answered(InventoryViews.SalesOrderIssue(data))) == Message(IssueErrorText, Danger)
  {
  }

  /** The list answer: the page of orders, or a failure. */
  datatype OrdersAnswer = OrdersOk(results: seq<SalesOrder>) | OrdersFailed

  const LoadErrorText := "出庫待ち受注の読み込みに失敗しました。"

  // ---------------------------------------------------------------------
  // The page
  // ---------------------------------------------------------------------

  class Screen {
    var salesOrders: seq<SalesOrder>
    var loading: bool
    var error: Option<string>
    var isModalOpen: bool
    var selectedOrder: Option<SalesOrder>
    var issueQuantity: string
    var modalMessage: Message

    constructor ()
      ensures salesOrders == [] && loading && error.None?
      ensures !isModalOpen && selectedOrder.None? && issueQuantity == "" && modalMessage == NoMessage
    {
      salesOrders, loading, error := [], true, None;
      isModalOpen, selectedOrder, issueQuantity, modalMessage := false, None, "", NoMessage;
    }

    /** `fetchSalesOrders`: the pending orders, or the error with the list kept. */
    method FetchSalesOrders(answer: OrdersAnswer) returns (query: seq<Param>)
      modifies this`salesOrders, this`loading, this`error
      ensures query == ListQuery && !loading
      ensures answer.OrdersOk? ==> salesOrders == answer.results && error.None?
      ensures answer.OrdersFailed? ==> salesOrders == old(salesOrders) && error == Some(LoadErrorText)
    {
      query := ListQuery;
      match answer {
        case OrdersOk(results) =>
          salesOrders, error := results, None;
        case OrdersFailed =>
          error := Some(LoadErrorText);
      }
      loading := false;
    }

    /** `openModal`. */
    method OpenModal(order: SalesOrder)
      modifies this`selectedOrder, this`issueQuantity, this`modalMessage, this`isModalOpen
      ensures selectedOrder == Some(order) && issueQuantity == DefaultIssueQuantity(order)
      ensures modalMessage == NoMessage && isModalOpen
    {
      selectedOrder, issueQuantity, modalMessage, isModalOpen := Some(order), DefaultIssueQuantity(order), NoMessage, true;
    }

    /** `closeModal`: closed, with no order, quantity or message. */
    method CloseModal()
      modifies this`selectedOrder, this`issueQuantity, this`modalMessage, this`isModalOpen
      ensures selectedOrder.None? && issueQuantity == "" && modalMessage == NoMessage && !isModalOpen
    {
      selectedOrder, issueQuantity, modalMessage, isModalOpen := None, "", NoMessage, false;
    }

    method HandleQuantityChange(text: string)
      modifies this`issueQuantity
      ensures issueQuantity == text
    {
      issueQuantity := text;
    }

    /**
     * `handleIssueSubmit` up to the request: a refused quantity sets its
     * danger message and sends nothing; an accepted one is posted.
     */
    method HandleIssueSubmit() returns (request: Option<IssueRequest>)
      modifies this`modalMessage
      ensures selectedOrder.None? ==> request.None? && modalMessage == NoMessage
      ensures selectedOrder.Some? ==>
        match CheckIssue(issueQuantity, selectedOrder.value)
        case NotPositive => request.None? && modalMessage == Message(NotPositiveText, Danger)
        case OverRemaining => request.None? && modalMessage == Message(OverRemainingText, Danger)
        case IssueOk(q) => request == Some(IssueRequest(selectedOrder.value.id, q)) && modalMessage == NoMessage
    {
      modalMessage := NoMessage;
      if selectedOrder.None? {
        return None;
      }
      var order := selectedOrder.value;
      match CheckIssue(issueQuantity, order) {
        case NotPositive =>
          modalMessage := Message(NotPositiveText, Danger);
          return None;
        case OverRemaining =>
          modalMessage := Message(OverRemainingText, Danger);
          return None;
        case IssueOk(q) =>
          return Some(IssueRequest(order.id, q));
      }
    }

    /** The answer: its message in the modal (after a success the modal later closes and the list reloads). */
    method FinishIssue(outcome: IssueOutcome)
      modifies this`modalMessage
      ensures modalMessage == OutcomeMessage(outcome)
    {
      modalMessage := OutcomeMessage(outcome);
    }
  }
}
