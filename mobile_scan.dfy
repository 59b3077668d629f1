/**
 * What the three mobile pages receive when they post a decoded QR text to
 * the action-resolution endpoint, and the page effects every dispatcher can
 * have beyond its own state: calling the setter the scan was started for,
 * and navigating.
 *
 * A `result` value is a JSON object whose members the dispatchers read as
 * `action`, `payload`, `navigate`, `state`, `updateSearch` and
 * `updateFields`; records are flat JSON objects.
 */
module MobileScan {
  import opened Common
  import opened BaseModels
  import opened BaseApi
  import opened Json

  /** The members of `data.result || {}` that the dispatchers destructure; `None` is `undefined`. */
  datatype ScanResult = ScanResult(
    action: Option<string>,
    payload: Option<Record>,
    navigate: Option<string>,
    state: Option<Record>,
    updateSearch: Option<string>,
    updateFields: Option<Record>)

  const NoFields := ScanResult(None, None, None, None, None, None)

  /** `data.result || {}`. */
  function ResultFields(result: Option<ScanResult>): (f: ScanResult)
    ensures result.None? ==> f == NoFields
    ensures result.Some? ==> f == result.value
  {
    if result.Some? then result.value else NoFields
  }

  /** A string member that is present and non-empty. */
  predicate Given(s: Option<string>) { s.Some? && s.value != "" }

  /** How the fetch of the endpoint ends, as the dispatchers tell it apart. */
  datatype ScanReply =
    | NotFound
    | ErrorStatus(status: int, error: Option<string>)
    | Resolved(result: Option<ScanResult>)
    | NetworkFailure(message: string)

  /**
   * The reply the client sees for each endpoint answer: 404 is told apart,
   * the 400 body carries an `error` member, the 500 body does not.
   */
  function ReplyOf(r: QrResponse<ScanResult>): (reply: ScanReply)
    ensures r.QrNotFound? <==> reply.NotFound?
    ensures r.QrSuccess? <==> reply.Resolved?
    ensures r.QrSuccess? ==> reply == Resolved(Some(r.result))
  {
    match r
    case QrBadRequest => ErrorStatus(400, Some("qr_data is required."))
    case QrNotFound => NotFound
    case QrServerError(_) => ErrorStatus(500, None)
    case QrSuccess(_, result) => Resolved(Some(result))
  }

  /** The message a failed scan shows: the body's `error`, else "server error: status". */
  function ScanErrorText(reply: ScanReply): (t: string)
    requires reply.ErrorStatus? || reply.NetworkFailure?
    ensures StartsWith(t, "QRコード処理エラー: ")
  {
    var message :=
      if reply.NetworkFailure? then reply.message
      else OptOrElse(reply.error, "サーバーエラー: " + IntToString(reply.status));
    "QRコード処理エラー: " + message
  }

  /** What a dispatcher does outside its own fields. */
  datatype Effect =
    | SetterCalled(text: string)
    | Navigated(target: string, state: Option<Record>)

  /** `if (defaultSetter) defaultSetter(decodedText)`. */
  function DefaultEffect(hasSetter: bool, decodedText: string): (e: seq<Effect>)
    ensures |e| <= 1
    ensures hasSetter ==> e == [SetterCalled(decodedText)]
  {
    if hasSetter then [SetterCalled(decodedText)] else []
  }

  /**
   * An empty scan never reaches a rule: the endpoint answers 400 and the
   * page shows an error message.
   */
  lemma EmptyScanIsAnError(e: Engine<ScanResult>, table: seq<QrCodeAction>)
    ensures ReplyOf(ExecuteSpec(e, table, Some(""))).ErrorStatus?
    ensures ReplyOf(ExecuteSpec(e, table, Some(""))).status == 400
  {
  }

  /**
   * A text that no active rule resolves comes back as 404, the reply every
   * dispatcher answers by calling the default setter.
   */
  lemma UnresolvedScanIsNotFound(e: Engine<ScanResult>, table: seq<QrCodeAction>, text: string)
    requires text != ""
    requires forall j :: 0 <= j < |EvaluationOrder(table)| ==> RuleStep(e, EvaluationOrder(table)[j], text).Next?
    ensures ReplyOf(ExecuteSpec(e, table, Some(text))) == NotFound
  {
    ResolveNotFoundIff(e, EvaluationOrder(table), text);
  }
}
