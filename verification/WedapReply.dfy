/** What a wedap call can bring back, and how a submit or a reversal classifies it. */
module WedapReply {
  import opened Prelude
  import opened States

  /** One field of a JSON object, as far as the gateway looks at it. `Other` is any value that is
      neither a string nor null: `text` is its `str()`. */
  datatype Field = Missing | Null | Text(s: string) | Other(text: string, isTrue: bool, truthy: bool)
  {
    /** `raw.strip().upper() if isinstance(raw, str) else ""` */
    function Normalized(): string {
      if Text? then Upper(Strip(s)) else ""
    }

    /** `str(d.get(key, ""))` */
    function Rendered(): string {
      match this
      case Missing => ""
      case Null => "None"
      case Text(s) => s
      case Other(t, _, _) => t
    }

    /** `str(d.get(key) or "")` */
    function RenderedOrEmpty(): string {
      match this
      case Missing => ""
      case Null => ""
      case Text(s) => s
      case Other(t, _, truthy) => if truthy then t else ""
    }
  }

  /** The texts a field is read as: a string is itself, null and a missing field are empty unless `str` is
      applied to null, and any other value is its `str`, or empty when that is asked for and it is falsy. */
  lemma FieldReads(f: Field, s: string)
    ensures f.Rendered() == s <==> f == Text(s) || (f.Other? && f.text == s) || (f == Missing && s == "") || (f == Null && s == "None")
    ensures s != "" ==> (f.RenderedOrEmpty() == s <==> f == Text(s) || (f.Other? && f.truthy && f.text == s))
    ensures f.RenderedOrEmpty() == "" <==> f in {Missing, Null, Text("")} || (f.Other? && (f.truthy ==> f.text == ""))
    ensures !f.Text? ==> f.Normalized() == ""
    ensures f.Text? ==> f.Normalized() == Upper(Strip(f.s))
  {
  }

  /** The `data` object of a wedap envelope, restricted to the fields the gateway reads. */
  datatype Data = Data(
    txnStatus: Field,
    status: Field,
    debtSettled: Field,
    globalTxId: Field,
    detailStatus: Field,
    oriBizSeqNo: Field,
    transType: Field)

  const EMPTY_DATA := Data(Missing, Missing, Missing, Missing, Missing, Missing, Missing)

  /** `Falsy` stands for an absent, null, empty or zero `data`; `Unusable` for one `dict()` rejects. */
  datatype DataField = Falsy | Object(d: Data) | Unusable

  datatype Body =
    | NotJson
    | NotObject
    | Envelope(code: Option<string>, msg: string, data: DataField)

  datatype HttpResponse = HttpResponse(statusCode: int, body: Body)

  /** How a wedap call ends: the value or the exception its caller sees. */
  datatype CallResult =
    | Returned(data: Data)
    | WedapError(code: string, msg: string, httpStatus: int)
    | HttpStatusError(statusCode: int)
    | TransportError
    | OtherException

  function Unwrap(r: HttpResponse): CallResult {
    if 400 <= r.statusCode < 500 && r.body.Envelope? && r.body.code.Some? then
      WedapError(r.body.code.value, r.body.msg, r.statusCode)
    else if !(200 <= r.statusCode < 300) then
      HttpStatusError(r.statusCode)
    else
      match r.body
      case NotJson => OtherException
      case NotObject => OtherException
      case Envelope(code, msg, data) =>
        if code != Some("200") then
          WedapError(if code.Some? then code.value else "None", msg, r.statusCode)
        else
          match data
          case Falsy => Returned(EMPTY_DATA)
          case Object(d) => Returned(d)
          case Unusable => OtherException
  }

  const GENERIC_NORTHBOUND: set<string> := {"SUCCESS", "PROCESSING", "FAILED", "REVERSED", "PENDING"}
  const REPAYMENT_NORTHBOUND: set<string> := {"SUCCESS", "PROCESSING", "FAILED"}

  /** The fields an acknowledgement adds to the response. */
  datatype AckFields = AckFields(
    txnStatus: string,
    debtSettled: Option<bool>,
    globalTxId: Option<string>,
    detailStatus: Option<string>)

  datatype Ack = Ack(mapped: Option<OrderStatus>, fields: AckFields, trusted: bool)

  function TextOnly(f: Field): Option<string> {
    if f.Text? then Some(f.s) else None
  }

  function ParseAck(data: Data, repayment: bool): Ack {
    if !repayment then
      var status := data.txnStatus.Normalized();
      var trusted := status in GENERIC_NORTHBOUND;
      Ack(MapTxnStatus(status),
          AckFields(if trusted then status else "RESULT_UNKNOWN", None, None, None),
          trusted)
    else
      var status := data.status.Normalized();
      var trusted := status in REPAYMENT_NORTHBOUND;
      Ack(MapRepaymentStatus(status),
          AckFields(if trusted then status else "RESULT_UNKNOWN",
                    Some(data.debtSettled.Other? && data.debtSettled.isTrue),
                    TextOnly(data.globalTxId),
                    TextOnly(data.detailStatus)),
          trusted)
  }

  /** What the external call of a submit or a reversal hands to its second transaction. */
  datatype Verdict = Verdict(
    status: OrderStatus,
    fields: AckFields,
    errorCode: Option<string>,
    errorMsg: Option<string>,
    noEffect: bool,
    trusted: bool)

  function Truncate(s: string, n: nat): string {
    if |s| <= n then s else s[..n]
  }

  function PlainStatus(s: OrderStatus): AckFields {
    AckFields(StatusName(s), None, None, None)
  }

  const UNKNOWN_VERDICT := Verdict(RESULT_UNKNOWN, PlainStatus(RESULT_UNKNOWN), None, None, false, true)

  /** `submit_order` after its call: None when the exception is not caught there. */
  function ClassifySubmit(call: CallResult, repayment: bool): Option<Verdict> {
    match call
    case Returned(data) =>
      var ack := ParseAck(data, repayment);
      Some(Verdict(if ack.mapped.Some? then ack.mapped.value else SUBMITTED, ack.fields, None, None,
                   repayment && ack.mapped == Some(FAILED), ack.trusted))
    case TransportError => Some(UNKNOWN_VERDICT)
    case HttpStatusError(code) =>
      if code >= 500 then Some(UNKNOWN_VERDICT)
      else Some(Verdict(FAILED, PlainStatus(FAILED), Some("HTTP_" + IntText(code)), None,
                        !repayment && IsDoorReject(code), true))
    case WedapError(code, msg, httpStatus) =>
      var terminalReject := if repayment then IsTerminalReject(code) else true;
      var status := if terminalReject then FAILED else RESULT_UNKNOWN;
      Some(Verdict(status, PlainStatus(status), Some(code), Some(Truncate(msg, 200)),
                   if repayment then terminalReject else IsDoorReject(httpStatus), true))
    case OtherException => None
  }

  /** `submit_reversal` after its call. The acknowledged txnStatus describes the original order, so
      any answer means the reversal order itself SUCCEEDED. */
  function ClassifyReversal(call: CallResult): Option<Verdict> {
    match call
    case Returned(data) =>
      var northbound := if data.txnStatus.Text? then data.txnStatus.s else "REVERSED";
      Some(Verdict(SUCCEEDED, AckFields(northbound, None, None, None), None, None, false, true))
    case TransportError => Some(UNKNOWN_VERDICT)
    case HttpStatusError(code) =>
      if code >= 500 then Some(UNKNOWN_VERDICT)
      else Some(Verdict(FAILED, PlainStatus(FAILED), Some("HTTP_" + IntText(code)), None,
                        IsDoorReject(code), true))
    case WedapError(code, msg, httpStatus) =>
      Some(Verdict(FAILED, PlainStatus(FAILED), Some(code), Some(Truncate(msg, 200)),
                   IsDoorReject(httpStatus), true))
    case OtherException => None
  }

  // ---- what an answer is evidence for -------------------------------------------------------

  /** An answer to a submit states outright that the order ended in `s`. */
  predicate SubmitProves(call: CallResult, repayment: bool, s: OrderStatus) {
    match call
    case Returned(data) =>
      if repayment
      then s != REVERSED && WordFor(data.status.Normalized(), s)
      else WordFor(data.txnStatus.Normalized(), s)
    case HttpStatusError(code) => s == FAILED && code < 500
    case WedapError(code, _, _) => s == FAILED && (repayment ==> IsTerminalReject(code))
    case TransportError => false
    case OtherException => false
  }

  /** An answer to a reversal instruction states outright that the instruction ended in `s`. */
  predicate ReversalProves(call: CallResult, s: OrderStatus) {
    match call
    case Returned(_) => s == SUCCEEDED
    case HttpStatusError(code) => s == FAILED && code < 500
    case WedapError(_, _, _) => s == FAILED
    case TransportError => false
    case OtherException => false
  }

  lemma UpperIdempotent(s: string)
    ensures Upper(Upper(s)) == Upper(s)
  {
    forall i | 0 <= i < |s| ensures Upper(Upper(s))[i] == Upper(s)[i] {
      assert Upper(s)[i] == UpperChar(s[i]);
    }
  }

  /** A submit ends an order exactly when the answer proves it, and then in the proved status. */
  lemma SubmitVerdictIsProved(call: CallResult, repayment: bool, s: OrderStatus)
    requires IsTerminal(s)
    ensures ClassifySubmit(call, repayment).Some? && ClassifySubmit(call, repayment).value.status == s
            <==> SubmitProves(call, repayment, s)
  {
    if call.Returned? {
      var f := if repayment then call.data.status else call.data.txnStatus;
      assert Upper(f.Normalized()) == f.Normalized() by {
        if f.Text? { UpperIdempotent(Strip(f.s)); } else { assert Upper("") == ""; }
      }
    }
  }

  lemma ReversalVerdictIsProved(call: CallResult, s: OrderStatus)
    requires IsTerminal(s)
    ensures ClassifyReversal(call).Some? && ClassifyReversal(call).value.status == s
            <==> ReversalProves(call, s)
  {
  }

  /** Timeouts, 5xx, unknown statuses and unlisted repayment codes prove nothing. */
  lemma WeakAnswersProveNothing(call: CallResult, repayment: bool, s: OrderStatus)
    requires IsTerminal(s)
    requires
      || call.TransportError?
      || (call.HttpStatusError? && call.statusCode >= 500)
      || (call.Returned? && !repayment && call.data.txnStatus.Normalized() !in {"SUCCESS", "FAILED", "REVERSED"})
      || (call.Returned? && repayment && call.data.status.Normalized() !in {"SUCCESS", "FAILED"})
      || (call.WedapError? && repayment && !IsTerminalReject(call.code))
    ensures !SubmitProves(call, repayment, s)
    ensures var v := ClassifySubmit(call, repayment);
            v.Some? && v.value.status in {SUBMITTED, RESULT_UNKNOWN} && !v.value.noEffect
  {
    SubmitVerdictIsProved(call, repayment, SUCCEEDED);
    SubmitVerdictIsProved(call, repayment, FAILED);
    SubmitVerdictIsProved(call, repayment, REVERSED);
  }

  /** Every verdict leaves ACCEPTED along the transition table, to a status a submit may set. */
  lemma VerdictsAreLegal(call: CallResult, repayment: bool)
    ensures var v := ClassifySubmit(call, repayment);
            v.Some? ==> v.value.status in {SUBMITTED, RESULT_UNKNOWN, SUCCEEDED, FAILED, REVERSED} &&
                        MayMove(ACCEPTED, v.value.status)
    ensures var v := ClassifyReversal(call);
            v.Some? ==> v.value.status in {RESULT_UNKNOWN, SUCCEEDED, FAILED} &&
                        MayMove(ACCEPTED, v.value.status)
  {
  }
}
