/**
 * The mobile goods-issue page (frontend/src/pages/mobile/MobileGoodsIssuePage.tsx):
 * a paged list of sales orders with a search bar, an issue modal, and a QR
 * dispatcher that turns a resolved scan into opening the modal, navigating,
 * or searching, with the legacy `updateSearch` fallback.
 */
module MobileGoodsIssue {
  import opened Common
  import opened Json
  import opened MobileScan
  import InventoryViews

  const PageSize: int := 25

  datatype SearchParams = SearchParams(q: string, status: string)

  /** The list query: page, page size, then `search_q` and `search_status` when non-empty. */
  function SalesOrderQuery(page: nat, q: string, status: string): (ps: seq<Param>)
    ensures 2 <= |ps| <= 4
    ensures ps[0] == Param("page", NatToString(page)) && ps[1] == Param("page_size", "25")
    ensures ValuesOf(ps, "search_q") == (if q != "" then [q] else [])
    ensures ValuesOf(ps, "search_status") == (if status != "" then [status] else [])
  {
    var head := [Param("page", NatToString(page)), Param("page_size", "25")];
    var search := if q != "" then [Param("search_q", q)] else [];
    var filter := if status != "" then [Param("search_status", status)] else [];
    ValuesOfAppend(head, search, "search_q");
    ValuesOfAppend(head + search, filter, "search_q");
    ValuesOfAppend(head, search, "search_status");
    ValuesOfAppend(head + search, filter, "search_status");
    head + search + filter
  }

  // ---------------------------------------------------------------------
  // The QR dispatcher
  // ---------------------------------------------------------------------

  /** What a resolved scan does on this page. */
  datatype IssueAction =
    | OpenIssue(order: Record)
    | NavigateTo(target: string, state: Option<Record>)
    | SearchFor(term: string)
    | UseDefault

  /**
   * The switch on `action` and, when it handled nothing, the legacy
   * `updateSearch` fallback; a single `handled` flag, so one outcome.
   */
  function IssueDecision(f: ScanResult): IssueAction
  {
    if f.action == Some("goods_issue") && f.payload.Some? then OpenIssue(f.payload.value)
    else if f.action == Some("navigate") && Given(f.navigate) then NavigateTo(f.navigate.value, f.state)
    else if f.action == Some("update_search") && Given(f.updateSearch) then SearchFor(f.updateSearch.value)
    else if Given(f.updateSearch) then SearchFor(f.updateSearch.value)
    else UseDefault
  }

  /**
   * Any action other than `goods_issue` and `navigate` (none,
   * `update_fields`, `location_transfer`, an unknown name, or a known one
   * missing its member) is decided by `updateSearch` alone.
   */
  lemma OtherActionsFallBack(f: ScanResult)
    requires !(f.action == Some("goods_issue") && f.payload.Some?)
    requires !(f.action == Some("navigate") && Given(f.navigate))
    ensures IssueDecision(f) == if Given(f.updateSearch) then SearchFor(f.updateSearch.value) else UseDefault
  {
  }

  /** `update_fields` and `location_transfer` are not recognised on this page. */
  lemma FieldActionsNotRecognised(f: ScanResult)
    requires f.action == Some("update_fields") || f.action == Some("location_transfer")
    ensures IssueDecision(f).SearchFor? <==> Given(f.updateSearch)
    ensures IssueDecision(f).UseDefault? <==> !Given(f.updateSearch)
  {
  }

  /** The default setter is used exactly when nothing matched the fields. */
  lemma DefaultOnlyWhenUnhandled(f: ScanResult)
    ensures IssueDecision(f) == UseDefault <==>
      !(f.action == Some("goods_issue") && f.payload.Some?)
      && !(f.action == Some("navigate") && Given(f.navigate))
      && !Given(f.updateSearch)
  {
  }

  /** The external effects of one decision: at most one per scan. */
  function IssueEffects(d: IssueAction, hasSetter: bool, decodedText: string): (e: seq<Effect>)
    ensures |e| <= 1
    ensures d.NavigateTo? ==> e == [Navigated(d.target, d.state)]
    ensures d.UseDefault? ==> e == DefaultEffect(hasSetter, decodedText)
    ensures d.OpenIssue? || d.SearchFor? ==> e == []
  {
    match d
    case NavigateTo(t, s) => [Navigated(t, s)]
    case UseDefault => DefaultEffect(hasSetter, decodedText)
    case _ => []
  }

  /** The modal's default quantity: the remaining quantity when positive, else "1". */
  function DefaultShipQuantity(order: Record): string
  {
    var remaining := NumField(order, "remaining_quantity");
    if remaining.Some? && remaining.value > 0 then NatToString(remaining.value) else "1"
  }

  // ---------------------------------------------------------------------
  // Submit validation
  // ---------------------------------------------------------------------

  datatype ShipCheck = NotPositive | OverRemaining | ShipOk(quantity: int)

  /**
   * `parseInt` of the input must be a number ≥ 1 and, when the order's
   * remaining quantity is a number, not above it.
   */
  function ShipValidation(quantityText: string, order: Record): ShipCheck
  {
    var qty := ParseInt(quantityText);
    var remaining := NumField(order, "remaining_quantity");
    if qty.None? || qty.value <= 0 then NotPositive
    else if remaining.Some? && qty.value > remaining.value then OverRemaining
    else ShipOk(qty.value)
  }

  /** An accepted quantity is positive and within the remaining quantity. */
  lemma ShipOkBounds(quantityText: string, order: Record)
    ensures ShipValidation(quantityText, order).ShipOk? <==>
      ParseInt(quantityText).Some? && ParseInt(quantityText).value >= 1
      && (NumField(order, "remaining_quantity").Some? ==>
            ParseInt(quantityText).value <= NumField(order, "remaining_quantity").value)
    ensures ShipValidation(quantityText, order).ShipOk? ==>
      ShipValidation(quantityText, order).quantity == ParseInt(quantityText).value
  {
  }

  /**
   * The quantity the modal opens with is accepted as is whenever the order
   * still has something to ship, and it is the whole remaining quantity.
   */
  lemma DefaultQuantityAccepted(order: Record)
    requires NumField(order, "remaining_quantity").Some? && NumField(order, "remaining_quantity").value > 0
    ensures ShipValidation(DefaultShipQuantity(order), order) == ShipOk(NumField(order, "remaining_quantity").value)
  {
    ParseIntOfIntToString(NumField(order, "remaining_quantity").value);
  }

  /** With nothing left to ship, the default "1" is refused as too large. */
  lemma DefaultQuantityRefusedWhenNothingLeft(order: Record)
    requires NumField(order, "remaining_quantity").Some? && NumField(order, "remaining_quantity").value <= 0
    ensures ShipValidation(DefaultShipQuantity(order), order) == OverRemaining
  {
    ParseIntOfIntToString(1);
  }

  /** The issue request body: `{order_id, quantity_to_ship}` (`order_id` absent when the record has none). */
  const IssueFailed := "出庫処理中にエラーが発生しました。"

  datatype IssueRequest = IssueRequest(orderId: Option<Value>, quantityToShip: int)

  /** How the issue request ends. */
  datatype IssueOutcome =
    | IssueAnswered(ok: bool, success: bool, message: Option<string>, error: Option<string>)
    | IssueNetworkError

  /** The JSON body the page reads from an answer of the issue endpoint: `ok`, `success`, `message`, `error`. */
  function IssueOutcomeOf(reply: InventoryViews.Reply): (o: IssueOutcome)
    ensures o.IssueAnswered?
    ensures o.ok <==> reply.Success?
    ensures o.success <==> reply.Success?
    ensures reply.BadRequest? ==> o.error == Some(reply.error)
    ensures !reply.BadRequest? ==> o.error.None?
  {
    match reply
    case Success(m) => IssueAnswered(true, true, Some(m), None)
    case BadRequest(e) => IssueAnswered(false, false, None, Some(e))
    case NotImplemented(m) => IssueAnswered(false, false, Some(m), None)
    case _ => IssueAnswered(false, false, None, None)
  }

  /**
   * The endpoint this page posts to answers 501 with only a `message`, so an
   * accepted submission always ends with the page's generic error text.
   */
  lemma IssueSubmissionAlwaysFails(data: Record)
    ensures var o := IssueOutcomeOf(InventoryViews.SalesOrderIssue(data));
      o.IssueAnswered? && !o.ok && OptOrElse(o.error, IssueFailed) == IssueFailed
  {
  }

  // ---------------------------------------------------------------------
  // Pagination
  // ---------------------------------------------------------------------

  datatype PageInfo =
    | InfoLoading
    | InfoError
    | InfoEmpty
    | InfoRange(total: int, first: int, last: int, page: int, pages: int)

  /** The counter line above the list. */
  function PaginationInfo(loading: bool, rowCount: nat, hasError: bool, totalCount: int, currentPage: int, totalPages: int): PageInfo
  {
    if loading && rowCount == 0 then InfoLoading
    else if hasError then InfoError
    else if totalCount == 0 then InfoEmpty
    else
      var first := (currentPage - 1) * PageSize + 1;
      InfoRange(totalCount, first, Min(first + PageSize - 1, totalCount), currentPage, totalPages)
  }


  /** On a page that holds rows, the counter shows 1 ≤ first ≤ last ≤ total and at most 25 rows. */
  lemma PaginationInfoBounds(rowCount: nat, totalCount: int, currentPage: int, totalPages: int)
    requires rowCount > 0 && totalCount > 0
    requires currentPage >= 1 && (currentPage - 1) * PageSize < totalCount
    ensures var info := PaginationInfo(false, rowCount, false, totalCount, currentPage, totalPages);
      info.InfoRange? && 1 <= info.first <= info.last <= totalCount && info.last - info.first < PageSize
      && info.first == (currentPage - 1) * PageSize + 1
  {
  }

  /** The page-number buttons: hidden for one page or none, else the window of ±2 around the page. */
  method PaginationItems(currentPage: int, totalPages: int) returns (shown: bool, items: seq<int>)
    ensures shown <==> totalPages > 1
    ensures shown ==> items == PageRange(Max(1, currentPage - 2), Min(totalPages, currentPage + 2))
    ensures !shown ==> items == []
  {
    if totalPages <= 1 {
      return false, [];
    }
    items := [];
    var startPage := Max(1, currentPage - 2);
    var endPage := Min(totalPages, currentPage + 2);
    var number := startPage;
    while number <= endPage
      invariant startPage <= number <= Max(startPage, endPage + 1)
      invariant items == PageRange(startPage, number - 1)
      decreases endPage - number
    {
      items := items + [number];
      number := number + 1;
    }
    shown := true;
  }

  /** The window holds only real pages, at most five, and the current one when it is real. */
  lemma PageWindowBounds(currentPage: int, totalPages: int)
    requires totalPages > 1
    ensures var w := PageRange(Max(1, currentPage - 2), Min(totalPages, currentPage + 2));
      |w| <= 5 && (forall k :: 0 <= k < |w| ==> 1 <= w[k] <= totalPages)
      && (1 <= currentPage <= totalPages ==> currentPage in w)
  {
    var w := PageRange(Max(1, currentPage - 2), Min(totalPages, currentPage + 2));
    if 1 <= currentPage <= totalPages {
      assert w[currentPage - Max(1, currentPage - 2)] == currentPage;
    }
  }

  /** The "previous" and "next" arrows keep the page within 1..T. */
  function PrevPage(p: int): int { Max(1, p - 1) }
  function NextPage(p: int, totalPages: int): int { Min(totalPages, p + 1) }

  lemma ArrowsStayInRange(p: int, totalPages: int)
    requires 1 <= p <= totalPages
    ensures 1 <= PrevPage(p) <= p && p <= NextPage(p, totalPages) <= totalPages
    ensures PrevPage(p) == p <==> p == 1
    ensures NextPage(p, totalPages) == p <==> p == totalPages
  {
  }

  // ---------------------------------------------------------------------
  // The list answer
  // ---------------------------------------------------------------------

  /**
   * What `fetchSalesOrders` gets: an ok answer whose `results`,
   * `total_pages` and `count` may be absent or null, a non-ok status, or a
   * thrown error (network or JSON) with its message.
   */
  datatype OrdersAnswer =
    | OrdersPage(results: Option<seq<Record>>, pages: Option<int>, count: Option<int>)
    | OrdersNotOk
    | OrdersThrown(message: string)

  const LoadFailed := "データの読み込みに失敗しました。"

  /** `x || 0` on a number that may be absent: 0 is falsy, so it stays 0. */
  function OrZero(n: Option<int>): (r: int)
    ensures n.Some? ==> r == n.value
    ensures n.None? ==> r == 0
  {
    if n.Some? then n.value else 0
  }

  // ---------------------------------------------------------------------
  // The page state
  // ---------------------------------------------------------------------

  class GoodsIssuePage {
    var searchQueryInput: string
    var searchStatusInput: string
    var committed: SearchParams
    var currentPage: int
    var showModal: bool
    var selectedOrder: Option<Record>
    var quantityToShip: string
    var modalMessage: Message
    var isSubmitting: bool
    var loading: bool
    var error: Option<string>
    /** The orders of the current page and the counts the list answer gave. */
    var salesOrders: seq<Record>
    var totalPages: int
    var totalCount: int
    /** The setter calls and navigations the page has made, oldest first. */
    var effects: seq<Effect>

    constructor ()
      ensures searchQueryInput == "" && searchStatusInput == "pending"
      ensures committed == SearchParams("", "pending") && currentPage == 1
      ensures !showModal && selectedOrder.None? && quantityToShip == "" && modalMessage == NoMessage
      ensures !isSubmitting && loading && error.None? && effects == []
      ensures salesOrders == [] && totalPages == 0 && totalCount == 0
    {
      searchQueryInput := "";
      searchStatusInput := "pending";
      committed := SearchParams("", "pending");
      currentPage := 1;
      showModal := false;
      selectedOrder := None;
      quantityToShip := "";
      modalMessage := NoMessage;
      isSubmitting := false;
      loading := true;
      error := None;
      salesOrders := [];
      totalPages := 0;
      totalCount := 0;
      effects := [];
    }

    /** The counter line for the current state; `if (error)` is false for an empty message. */
    function Info(): PageInfo
      reads this
    {
      PaginationInfo(loading, |salesOrders|, error.Some? && error.value != "", totalCount, currentPage, totalPages)
    }

    /**
     * `fetchSalesOrders`: an ok answer fills the list and both counts (an
     * absent member reads as empty or 0); a non-ok status throws the
     * loading-failed error, and any thrown error empties the list and the
     * counts and shows its message. Loading ends in every case.
     */
    method FetchSalesOrders(answer: OrdersAnswer)
      modifies this
      ensures !loading
      ensures answer.OrdersPage? ==> (
        && error.None?
        && salesOrders == (if answer.results.Some? then answer.results.value else [])
        && totalPages == OrZero(answer.pages) && totalCount == OrZero(answer.count))
      ensures !answer.OrdersPage? ==> salesOrders == [] && totalPages == 0 && totalCount == 0
      ensures answer.OrdersNotOk? ==> error == Some(LoadFailed)
      ensures answer.OrdersThrown? ==> error == Some(answer.message)
      ensures answer.OrdersNotOk? ==> Info() == InfoError
      ensures answer.OrdersThrown? ==> (Info() == InfoError <==> answer.message != "")
      ensures answer.OrdersPage? && OrZero(answer.count) == 0 ==> Info() == InfoEmpty
      ensures searchQueryInput == old(searchQueryInput) && searchStatusInput == old(searchStatusInput)
      ensures committed == old(committed) && currentPage == old(currentPage)
      ensures showModal == old(showModal) && selectedOrder == old(selectedOrder) && quantityToShip == old(quantityToShip)
      ensures modalMessage == old(modalMessage) && isSubmitting == old(isSubmitting) && effects == old(effects)
    {
      loading := true;
      error := None;
      match answer {
        case OrdersPage(results, pages, count) =>
          salesOrders := if results.Some? then results.value else [];
          totalPages := OrZero(pages);
          totalCount := OrZero(count);
        case OrdersNotOk =>
          error := Some(LoadFailed);
          salesOrders, totalPages, totalCount := [], 0, 0;
        case OrdersThrown(message) =>
          error := Some(message);
          salesOrders, totalPages, totalCount := [], 0, 0;
      }
      loading := false;
    }

    /** Opens the issue modal on an order, its quantity at the default. */
    method HandleOpenModal(order: Record)
      modifies this
      ensures salesOrders == old(salesOrders) && totalPages == old(totalPages) && totalCount == old(totalCount)
      ensures selectedOrder == Some(order) && quantityToShip == DefaultShipQuantity(order)
      ensures modalMessage == NoMessage && !isSubmitting && showModal
      ensures searchQueryInput == old(searchQueryInput) && searchStatusInput == old(searchStatusInput)
      ensures committed == old(committed) && currentPage == old(currentPage)
      ensures loading == old(loading) && error == old(error) && effects == old(effects)
    {
      selectedOrder := Some(order);
      var remaining := NumField(order, "remaining_quantity");
      quantityToShip := if remaining.Some? && remaining.value > 0 then NatToString(remaining.value) else "1";
      modalMessage := NoMessage;
      isSubmitting := false;
      showModal := true;
    }

    /** Puts a search term in the input and commits it with the current status input, on page 1. */
    method ApplySearch(term: string)
      modifies this
      ensures salesOrders == old(salesOrders) && totalPages == old(totalPages) && totalCount == old(totalCount)
      ensures searchQueryInput == term && committed == SearchParams(term, old(searchStatusInput))
      ensures currentPage == 1
      ensures searchStatusInput == old(searchStatusInput) && showModal == old(showModal)
      ensures selectedOrder == old(selectedOrder) && quantityToShip == old(quantityToShip)
      ensures modalMessage == old(modalMessage) && isSubmitting == old(isSubmitting)
      ensures loading == old(loading) && error == old(error) && effects == old(effects)
    {
      searchQueryInput := term;
      committed := SearchParams(term, searchStatusInput);
      currentPage := 1;
    }

    /**
     * `handleQrCodeResult`: 404 calls the default setter with the scanned
     * text; any other failure only shows an error; a resolved scan does
     * what `IssueDecision` says. Loading ends in every case.
     */
    method HandleQrCodeResult(decodedText: string, hasSetter: bool, reply: ScanReply)
      modifies this
      ensures salesOrders == old(salesOrders) && totalPages == old(totalPages) && totalCount == old(totalCount)
      ensures !loading
      ensures reply.NotFound? ==> error.None? && effects == old(effects) + DefaultEffect(hasSetter, decodedText)
      ensures reply.ErrorStatus? || reply.NetworkFailure? ==>
        error == Some(ScanErrorText(reply)) && effects == old(effects)
      ensures !reply.Resolved? ==>
        searchQueryInput == old(searchQueryInput) && committed == old(committed)
        && currentPage == old(currentPage) && showModal == old(showModal)
        && selectedOrder == old(selectedOrder) && quantityToShip == old(quantityToShip)
      ensures reply.Resolved? ==> error.None?
      ensures reply.Resolved? ==>
        effects == old(effects) + IssueEffects(IssueDecision(ResultFields(reply.result)), hasSetter, decodedText)
      ensures reply.Resolved? && IssueDecision(ResultFields(reply.result)).OpenIssue? ==>
        (var order := IssueDecision(ResultFields(reply.result)).order;
         selectedOrder == Some(order) && showModal
         && quantityToShip == DefaultShipQuantity(order) && modalMessage == NoMessage)
      ensures reply.Resolved? && IssueDecision(ResultFields(reply.result)).SearchFor? ==>
        (var term := IssueDecision(ResultFields(reply.result)).term;
         searchQueryInput == term && committed == SearchParams(term, old(searchStatusInput))
         && currentPage == 1)
      ensures reply.Resolved? && !IssueDecision(ResultFields(reply.result)).SearchFor? ==>
        (searchQueryInput == old(searchQueryInput) && committed == old(committed)
         && currentPage == old(currentPage))
      ensures reply.Resolved? && !IssueDecision(ResultFields(reply.result)).OpenIssue? ==>
        (selectedOrder == old(selectedOrder) && showModal == old(showModal)
         && quantityToShip == old(quantityToShip))
      ensures searchStatusInput == old(searchStatusInput)
    {
      loading := true;
      error := None;
      match reply {
        case NotFound =>
          if hasSetter {
            effects := effects + [SetterCalled(decodedText)];
          }
        case ErrorStatus(_, _) =>
          error := Some(ScanErrorText(reply));
        case NetworkFailure(_) =>
          error := Some(ScanErrorText(reply));
        case Resolved(result) =>
          var f := ResultFields(result);
          var handled := false;
          if f.action.Some? && f.action.value != "" {
            if f.action.value == "goods_issue" {
              if f.payload.Some? {
                HandleOpenModal(f.payload.value);
                handled := true;
              }
            } else if f.action.value == "navigate" {
              if Given(f.navigate) {
                effects := effects + [Navigated(f.navigate.value, f.state)];
                handled := true;
              }
            } else if f.action.value == "update_search" {
              if Given(f.updateSearch) {
                ApplySearch(f.updateSearch.value);
                handled := true;
              }
            }
          }
          // the legacy result format
          if !handled && Given(f.updateSearch) {
            ApplySearch(f.updateSearch.value);
            handled := true;
          }
          if !handled && hasSetter {
            effects := effects + [SetterCalled(decodedText)];
          }
      }
      loading := false;
    }

    /** The search form: commit the inputs and go back to page 1. */
    method HandleSearch()
      modifies this
      ensures salesOrders == old(salesOrders) && totalPages == old(totalPages) && totalCount == old(totalCount)
      ensures currentPage == 1 && committed == SearchParams(old(searchQueryInput), old(searchStatusInput))
      ensures searchQueryInput == old(searchQueryInput) && searchStatusInput == old(searchStatusInput)
    {
      currentPage := 1;
      committed := SearchParams(searchQueryInput, searchStatusInput);
    }

    /** Reset: blank query, status "pending", page 1, and the same committed. */
    method HandleReset()
      modifies this
      ensures salesOrders == old(salesOrders) && totalPages == old(totalPages) && totalCount == old(totalCount)
      ensures searchQueryInput == "" && searchStatusInput == "pending" && currentPage == 1
      ensures committed == SearchParams("", "pending")
      ensures showModal == old(showModal) && selectedOrder == old(selectedOrder) && effects == old(effects)
    {
      searchQueryInput := "";
      searchStatusInput := "pending";
      currentPage := 1;
      committed := SearchParams("", "pending");
    }

    method HandleCloseModal()
      modifies this
      ensures salesOrders == old(salesOrders) && totalPages == old(totalPages) && totalCount == old(totalCount)
      ensures !showModal && selectedOrder.None?
      ensures quantityToShip == old(quantityToShip) && modalMessage == old(modalMessage)
      ensures committed == old(committed) && currentPage == old(currentPage) && effects == old(effects)
    {
      showModal := false;
      selectedOrder := None;
    }

    /**
     * Submit: without a selected order nothing happens; an invalid quantity
     * sets the danger message and sends nothing; otherwise the request is
     * built and the modal is marked as submitting.
     */
    method HandleIssueSubmit() returns (request: Option<IssueRequest>)
      modifies this
      ensures salesOrders == old(salesOrders) && totalPages == old(totalPages) && totalCount == old(totalCount)
      ensures old(selectedOrder).None? ==>
        (request.None? && modalMessage == old(modalMessage) && isSubmitting == old(isSubmitting))
      ensures old(selectedOrder).Some? && ShipValidation(old(quantityToShip), old(selectedOrder).value) == NotPositive ==>
        (request.None? && isSubmitting == old(isSubmitting)
         && modalMessage == Message("出庫数量は1以上の正の整数である必要があります。", "danger"))
      ensures old(selectedOrder).Some? && ShipValidation(old(quantityToShip), old(selectedOrder).value) == OverRemaining ==>
        (request.None? && isSubmitting == old(isSubmitting)
         && modalMessage == Message("出庫数量が残数量を超えています。", "danger"))
      ensures old(selectedOrder).Some? && ShipValidation(old(quantityToShip), old(selectedOrder).value).ShipOk? ==>
        (isSubmitting && modalMessage == NoMessage
         && request == Some(IssueRequest(Lookup(old(selectedOrder).value, "id"),
                                         ShipValidation(old(quantityToShip), old(selectedOrder).value).quantity)))
      ensures selectedOrder == old(selectedOrder) && quantityToShip == old(quantityToShip)
      ensures showModal == old(showModal) && committed == old(committed) && effects == old(effects)
    {
      if selectedOrder.None? {
        return None;
      }
      var order := selectedOrder.value;
      modalMessage := NoMessage;
      var qty := ParseInt(quantityToShip);
      if qty.None? || qty.value <= 0 {
        modalMessage := Message("出庫数量は1以上の正の整数である必要があります。", "danger");
        return None;
      }
      var remaining := NumField(order, "remaining_quantity");
      if remaining.Some? && qty.value > remaining.value {
        modalMessage := Message("出庫数量が残数量を超えています。", "danger");
        return None;
      }
      isSubmitting := true;
      request := Some(IssueRequest(Lookup(order, "id"), qty.value));
    }

    /** The answer to the issue request: the server's message, its error, or a network error. */
    method FinishIssue(outcome: IssueOutcome)
      modifies this
      ensures salesOrders == old(salesOrders) && totalPages == old(totalPages) && totalCount == old(totalCount)
      ensures !isSubmitting
      ensures outcome.IssueNetworkError? ==> modalMessage == Message("通信エラーが発生しました。", "danger")
      ensures outcome.IssueAnswered? && outcome.ok && outcome.success ==>
        modalMessage == Message(OptOrElse(outcome.message, ""), "success")
      ensures outcome.IssueAnswered? && !(outcome.ok && outcome.success) ==>
        modalMessage == Message(OptOrElse(outcome.error, IssueFailed), "danger")
      ensures selectedOrder == old(selectedOrder) && showModal == old(showModal) && effects == old(effects)
    {
      match outcome {
        case IssueNetworkError =>
          modalMessage := Message("通信エラーが発生しました。", "danger");
        case IssueAnswered(ok, success, message, err) =>
          if ok && success {
            modalMessage := Message(OptOrElse(message, ""), "success");
          } else {
            modalMessage := Message(OptOrElse(err, IssueFailed), "danger");
          }
      }
      isSubmitting := false;
    }
  }
}
