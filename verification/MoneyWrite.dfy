/** The typed response fields of a money write (app/domain/money_write.py) and their coherence. */
module MoneyWrite {
  import opened Prelude
  import opened States
  import opened WedapReply

  datatype Outcome = NOT_APPLIED | PENDING | UNKNOWN | ACCEPTED_UPSTREAM

  datatype OperationStatus = OP_PENDING | OP_RECONCILING | OP_SUCCEEDED | OP_REJECTED

  datatype RetryPolicy = NEVER | POLL_STATUS | CORRECT_AND_NEW_INTENT

  /** `resubmitAllowed` is always false and `operationId` is always the bizSeqNo, so neither is kept. */
  datatype TypedFields = TypedFields(
    outcome: Option<Outcome>,
    operationStatus: OperationStatus,
    retryPolicy: RetryPolicy,
    repaymentUrl: bool)

  function MoneyWriteFields(s: OrderStatus, noEffect: bool, repayment: bool, ackTrusted: bool): TypedFields {
    if s == SUCCEEDED then TypedFields(None, OP_SUCCEEDED, NEVER, repayment)
    else if s == ACCEPTED then TypedFields(Some(PENDING), OP_PENDING, POLL_STATUS, repayment)
    else if s in {SUBMITTED, PROCESSING} && ackTrusted then
      TypedFields(Some(ACCEPTED_UPSTREAM), OP_PENDING, POLL_STATUS, repayment)
    else if s == FAILED && noEffect then
      TypedFields(Some(NOT_APPLIED), OP_REJECTED, CORRECT_AND_NEW_INTENT, repayment)
    else TypedFields(Some(UNKNOWN), OP_RECONCILING, POLL_STATUS, repayment)
  }

  /** The response a money write stores and replays. */
  datatype Response = Response(
    fields: AckFields,
    inFlight: bool,
    errorCode: Option<string>,
    errorMsg: Option<string>,
    orderStatus: Option<OrderStatus>,
    typed: TypedFields)

  function InFlightResponse(repayment: bool): Response {
    Response(AckFields("PROCESSING", None, None, None), true, None, None, None,
             MoneyWriteFields(ACCEPTED, false, repayment, true))
  }

  /** The response of a second transaction: `after` is the order's status once the CAS is decided. */
  function FinalResponse(v: Verdict, after: OrderStatus, casApplied: bool, repayment: bool): Response {
    Response(v.fields, false, v.errorCode, v.errorMsg, Some(after),
             MoneyWriteFields(after, v.noEffect, repayment, v.trusted || !casApplied))
  }

  /** The order status a second transaction reports: its own when the CAS applied, and otherwise
      some terminal status another writer reached first. */
  predicate ReportedStatus(v: Verdict, after: OrderStatus, casApplied: bool) {
    if casApplied then after == v.status else IsTerminal(after)
  }

  /** The answers that prove a submit moved no money. */
  predicate ZeroEffect(call: CallResult, repayment: bool) {
    match call
    case Returned(data) => repayment && data.status.Normalized() == "FAILED"
    case HttpStatusError(code) => !repayment && IsDoorReject(code)
    case WedapError(code, _, httpStatus) =>
      if repayment then IsTerminalReject(code) else IsDoorReject(httpStatus)
    case TransportError => false
    case OtherException => false
  }

  /** What a fresh submit may tell its caller. NOT_APPLIED needs a FAILED order, a FAILED
      txnStatus and whitelisted zero-effect evidence; ACCEPTED needs the CAS, a SUBMITTED order and
      an acknowledgement that said PROCESSING or PENDING; and the override that trusts the
      acknowledgement again when the CAS is skipped changes no field. */
  lemma SubmitResponseCoherent(call: CallResult, repayment: bool, after: OrderStatus, casApplied: bool)
    requires ClassifySubmit(call, repayment).Some?
    requires ReportedStatus(ClassifySubmit(call, repayment).value, after, casApplied)
    ensures var v := ClassifySubmit(call, repayment).value;
            var r := FinalResponse(v, after, casApplied, repayment);
            && (r.typed.outcome == Some(NOT_APPLIED) <==> after == FAILED && ZeroEffect(call, repayment))
            && (r.typed.outcome == Some(NOT_APPLIED) ==> r.fields.txnStatus == "FAILED")
            && (r.typed.outcome == Some(ACCEPTED_UPSTREAM) ==>
                  casApplied && after == SUBMITTED && r.fields.txnStatus in {"PROCESSING", "PENDING"})
            && (r.typed.outcome == None <==> after == SUCCEEDED)
            && r.typed.outcome != Some(PENDING)
            && r == FinalResponse(v, after, true, repayment)
            && r.fields.txnStatus in GENERIC_NORTHBOUND + {"RESULT_UNKNOWN"}
  {
    if call.Returned? {
      WordIsUpper(if repayment then call.data.status else call.data.txnStatus);
    }
  }

  /** The same for a reversal order, whose txnStatus is passed on as received. */
  lemma ReversalResponseCoherent(call: CallResult, after: OrderStatus, casApplied: bool)
    requires ClassifyReversal(call).Some?
    requires casApplied && ClassifyReversal(call).value.status == SUCCEEDED ==> after in {SUCCEEDED, REVERSED}
    requires casApplied && ClassifyReversal(call).value.status != SUCCEEDED ==>
               after == ClassifyReversal(call).value.status
    requires !casApplied ==> IsTerminal(after)
    ensures var v := ClassifyReversal(call).value;
            var r := FinalResponse(v, after, casApplied, false);
            && (r.typed.outcome == Some(NOT_APPLIED) <==>
                  after == FAILED && !call.Returned? && ZeroEffect(call, false))
            && (r.typed.outcome == Some(NOT_APPLIED) ==> r.fields.txnStatus == "FAILED")
            && r.typed.outcome != Some(ACCEPTED_UPSTREAM)
            && r.typed.outcome != Some(PENDING)
            && (r.typed.outcome == None <==> after == SUCCEEDED)
  {
  }

  // ---- by HTTP response ---------------------------------------------------------------------

  predicate Success2xx(r: HttpResponse) {
    200 <= r.statusCode < 300
  }

  /** wedap accepted the call: the data of a 2xx envelope with code 200. */
  function Acknowledged(r: HttpResponse): Option<Data> {
    if Success2xx(r) && r.body.Envelope? && r.body.code == Some("200") then
      match r.body.data
      case Falsy => Some(EMPTY_DATA)
      case Object(d) => Some(d)
      case Unusable => None
    else None
  }

  /** wedap refused the business: the code of an envelope, which in a 2xx may also be missing. */
  function Refusal(r: HttpResponse): Option<string> {
    if !r.body.Envelope? then None
    else if Success2xx(r) && r.body.code != Some("200") then
      Some(if r.body.code.Some? then r.body.code.value else "None")
    else if 400 <= r.statusCode < 500 then r.body.code
    else None
  }

  /** What wedap reports about the order itself. */
  function Reported(d: Data, repayment: bool): string {
    if repayment then d.status.Normalized() else d.txnStatus.Normalized()
  }

  /** The HTTP responses that prove that no money moved. For everything but repayments it is the HTTP status
      alone, whatever the body says; for a repayment it is a whitelisted code in a 2xx or 4xx envelope, or
      an acknowledgement that says FAILED. */
  predicate ShowsNoEffect(r: HttpResponse, repayment: bool) {
    if !repayment then r.statusCode in {400, 401, 403, 404, 405, 415, 422}
    else
      || (Refusal(r).Some? && Whitelisted(Refusal(r).value))
      || (Acknowledged(r).Some? && Reported(Acknowledged(r).value, true) == "FAILED")
  }

  /** The ten business codes that promise that a repayment was refused before any money moved. */
  predicate Whitelisted(code: string) {
    || code == "6605B00900201" || code == "6605B00900202" || code == "6605B00900203" || code == "6605B00900204"
    || code == "6605B00900205" || code == "6605B00900207" || code == "6605B00900208" || code == "6605B00900209"
    || code == "6605B00900215" || code == "6605B00900216"
  }

  lemma WhitelistReads(code: string)
    ensures IsTerminalReject(code) <==> Whitelisted(code)
  {
  }

  /** These are the responses that are taken for zero-effect evidence. */
  lemma ZeroEffectByResponse(r: HttpResponse, repayment: bool)
    ensures ZeroEffect(Unwrap(r), repayment) <==> ShowsNoEffect(r, repayment)
  {
    if Unwrap(r).WedapError? {
      WhitelistReads(Unwrap(r).code);
    }
    hide IsTerminalReject, Whitelisted;
  }

  /** The verdict of a submit, from the HTTP response: it is SUCCEEDED exactly when an acknowledgement says
      so; FAILED exactly when one says that, when the business was refused (a repayment: with a whitelisted
      code), or when the status is neither 2xx nor 5xx and no refusal can be read; a 5xx decides nothing;
      and the order stays ACCEPTED exactly on a 2xx that is no envelope or whose data is no object. */
  lemma SubmitByResponse(r: HttpResponse, repayment: bool)
    ensures var v := ClassifySubmit(Unwrap(r), repayment);
            && (v.Some? && v.value.status == SUCCEEDED <==>
                  Acknowledged(r).Some? && Reported(Acknowledged(r).value, repayment) == "SUCCESS")
            && (v.Some? && v.value.status == FAILED <==>
                  || (Acknowledged(r).Some? && Reported(Acknowledged(r).value, repayment) == "FAILED")
                  || (Refusal(r).Some? && (repayment ==> Whitelisted(Refusal(r).value)))
                  || (Refusal(r).None? && !Success2xx(r) && r.statusCode < 500))
            && (r.statusCode >= 500 ==> v == Some(UNKNOWN_VERDICT))
            && (v.None? <==> Success2xx(r) && Acknowledged(r).None? && Refusal(r).None?)
  {
    SubmitVerdictIsProved(Unwrap(r), repayment, SUCCEEDED);
    SubmitVerdictIsProved(Unwrap(r), repayment, FAILED);
    if Refusal(r).Some? {
      WhitelistReads(Refusal(r).value);
    }
    hide IsTerminalReject, Whitelisted;
  }

  /** The verdict of a reversal order: SUCCEEDED exactly on an acknowledgement, whatever that says; FAILED
      exactly on any other answer below 500 that can be read. */
  lemma ReversalByResponse(r: HttpResponse)
    ensures var v := ClassifyReversal(Unwrap(r));
            && (v.Some? && v.value.status == SUCCEEDED <==> Acknowledged(r).Some?)
            && (v.Some? && v.value.status == FAILED <==>
                  Refusal(r).Some? || (!Success2xx(r) && r.statusCode < 500))
            && (r.statusCode >= 500 ==> v == Some(UNKNOWN_VERDICT))
            && (v.None? <==> Success2xx(r) && Acknowledged(r).None? && Refusal(r).None?)
  {
  }

  /** From the HTTP response to what the caller of an undisturbed submit is told: no outcome exactly for an
      acknowledged SUCCESS, ACCEPTED exactly for an acknowledgement that is under way, NOT_APPLIED exactly on
      zero-effect evidence, and UNKNOWN for everything else. */
  lemma OutcomeByResponse(r: HttpResponse, repayment: bool)
    requires ClassifySubmit(Unwrap(r), repayment).Some?
    ensures var v := ClassifySubmit(Unwrap(r), repayment).value;
            var outcome := FinalResponse(v, v.status, true, repayment).typed.outcome;
            var ack := Acknowledged(r);
            && (outcome == None <==> ack.Some? && Reported(ack.value, repayment) == "SUCCESS")
            && (outcome == Some(ACCEPTED_UPSTREAM) <==>
                  ack.Some? && Reported(ack.value, repayment) in (if repayment then {"PROCESSING"} else {"PROCESSING", "PENDING"}))
            && (outcome == Some(NOT_APPLIED) <==> ShowsNoEffect(r, repayment))
            && outcome != Some(PENDING)
  {
    var v := ClassifySubmit(Unwrap(r), repayment).value;
    SubmitByResponse(r, repayment);
    ZeroEffectByResponse(r, repayment);
    VerdictsAreLegal(Unwrap(r), repayment);
    if Unwrap(r).Returned? {
      WordIsUpper(if repayment then Unwrap(r).data.status else Unwrap(r).data.txnStatus);
    } else {
      SubmitResponseCoherent(Unwrap(r), repayment, v.status, true);
    }
  }

  lemma WordIsUpper(f: Field)
    ensures Upper(f.Normalized()) == f.Normalized()
  {
    if f.Text? { UpperIdempotent(Strip(f.s)); } else { assert Upper("") == ""; }
  }

  // ---- the whole answer ---------------------------------------------------------------------

  /** The JSON value `true` and nothing that merely looks like it. */
  predicate IsJsonTrue(f: Field) {
    f.Other? && f.isTrue
  }

  function FirstChars(s: string, n: nat): string {
    if |s| > n then s[..n] else s
  }

  /** What the answer to an ordinary submit says about wedap's HTTP response, all fields: of an
      acknowledgement the word itself if the contract knows it, and for repayments whether the debt is
      settled and two texts; of a refusal its code and message; and of anything else its HTTP status. */
  predicate SubmitTells(reply: Response, r: HttpResponse, repayment: bool) {
    var f := reply.fields;
    && (Acknowledged(r).Some? ==>
          var d := Acknowledged(r).value;
          var word := Reported(d, repayment);
          var known := if repayment then {"SUCCESS", "PROCESSING", "FAILED"}
                       else {"SUCCESS", "PROCESSING", "FAILED", "REVERSED", "PENDING"};
          && f.txnStatus == (if word in known then word else "RESULT_UNKNOWN")
          && f.debtSettled == (if repayment then Some(IsJsonTrue(d.debtSettled)) else None)
          && f.globalTxId == (if repayment && d.globalTxId.Text? then Some(d.globalTxId.s) else None)
          && f.detailStatus == (if repayment && d.detailStatus.Text? then Some(d.detailStatus.s) else None)
          && reply.errorCode == None && reply.errorMsg == None)
    && (Refusal(r).Some? ==>
          && f == AckFields(if repayment && !Whitelisted(Refusal(r).value) then "RESULT_UNKNOWN" else "FAILED", None, None, None)
          && reply.errorCode == Refusal(r)
          && reply.errorMsg == Some(FirstChars(r.body.msg, 200)))
    && (Refusal(r).None? && !Success2xx(r) && r.statusCode < 500 ==>
          && f == AckFields("FAILED", None, None, None)
          && reply.errorCode == Some("HTTP_" + IntText(r.statusCode)) && reply.errorMsg == None)
    && (r.statusCode >= 500 ==> TellsNothing(reply))
  }

  /** The result is not known. */
  predicate TellsNothing(reply: Response) {
    reply.fields == AckFields("RESULT_UNKNOWN", None, None, None) && reply.errorCode == None && reply.errorMsg == None
  }

  /** The same for a reversal: an acknowledged txnStatus is passed on as it is, and REVERSED if it is no
      text. */
  predicate ReversalTells(reply: Response, r: HttpResponse) {
    && (Acknowledged(r).Some? ==>
          var f := Acknowledged(r).value.txnStatus;
          && reply.fields == AckFields(if f.Text? then f.s else "REVERSED", None, None, None)
          && reply.errorCode == None && reply.errorMsg == None)
    && (Refusal(r).Some? ==>
          && reply.fields == AckFields("FAILED", None, None, None)
          && reply.errorCode == Refusal(r) && reply.errorMsg == Some(FirstChars(r.body.msg, 200)))
    && (Refusal(r).None? && !Success2xx(r) && r.statusCode < 500 ==>
          && reply.fields == AckFields("FAILED", None, None, None)
          && reply.errorCode == Some("HTTP_" + IntText(r.statusCode)) && reply.errorMsg == None)
    && (r.statusCode >= 500 ==> TellsNothing(reply))
  }

  /** The typed fields of a committed answer, by the status the order is in then. */
  predicate TypedFor(t: TypedFields, after: OrderStatus, showsNoEffect: bool, underWay: bool, repayment: bool) {
    && t.repaymentUrl == repayment
    && (t.outcome, t.operationStatus, t.retryPolicy) ==
       if after == SUCCEEDED then (None, OP_SUCCEEDED, NEVER)
       else if after == FAILED && showsNoEffect then (Some(NOT_APPLIED), OP_REJECTED, CORRECT_AND_NEW_INTENT)
       else if after == SUBMITTED && underWay then (Some(ACCEPTED_UPSTREAM), OP_PENDING, POLL_STATUS)
       else (Some(UNKNOWN), OP_RECONCILING, POLL_STATUS)
  }

  /** wedap acknowledged the submit as under way. */
  predicate UnderWay(r: HttpResponse, repayment: bool) {
    Acknowledged(r).Some? &&
    (Reported(Acknowledged(r).value, repayment) == "PROCESSING" ||
     (!repayment && Reported(Acknowledged(r).value, false) == "PENDING"))
  }

  /** The status a submit that finds its order still ACCEPTED leaves it in. */
  function StatusBy(r: HttpResponse, repayment: bool): OrderStatus {
    if Acknowledged(r).Some? then
      var word := Reported(Acknowledged(r).value, repayment);
      if word == "SUCCESS" then SUCCEEDED
      else if word == "FAILED" then FAILED
      else if word == "REVERSED" && !repayment then REVERSED
      else SUBMITTED
    else if r.statusCode >= 500 || (repayment && Refusal(r).Some? && !Whitelisted(Refusal(r).value)) then RESULT_UNKNOWN
    else FAILED
  }

  lemma StatusByResponse(r: HttpResponse, repayment: bool)
    requires ClassifySubmit(Unwrap(r), repayment).Some?
    ensures ClassifySubmit(Unwrap(r), repayment).value.status == StatusBy(r, repayment)
  {
    SubmitByResponse(r, repayment);
    SubmitVerdictIsProved(Unwrap(r), repayment, REVERSED);
    if Refusal(r).Some? {
      WhitelistReads(Refusal(r).value);
    }
    hide IsTerminalReject, Whitelisted, IntText;
  }

  lemma SubmitTexts(r: HttpResponse, repayment: bool, after: OrderStatus, casApplied: bool)
    requires ClassifySubmit(Unwrap(r), repayment).Some?
    ensures SubmitTells(FinalResponse(ClassifySubmit(Unwrap(r), repayment).value, after, casApplied, repayment), r, repayment)
  {
    if Refusal(r).Some? {
      WhitelistReads(Refusal(r).value);
    }
    hide IsTerminalReject, Whitelisted, IntText, MapTxnStatus, MapRepaymentStatus;
  }

  /** The whole answer of a committing submit, from the HTTP response and the status the order is in then. */
  lemma SubmitReply(r: HttpResponse, repayment: bool, after: OrderStatus, casApplied: bool)
    requires ClassifySubmit(Unwrap(r), repayment).Some?
    requires ReportedStatus(ClassifySubmit(Unwrap(r), repayment).value, after, casApplied)
    ensures var reply := FinalResponse(ClassifySubmit(Unwrap(r), repayment).value, after, casApplied, repayment);
            && !reply.inFlight && reply.orderStatus == Some(after)
            && SubmitTells(reply, r, repayment)
            && TypedFor(reply.typed, after, ShowsNoEffect(r, repayment), UnderWay(r, repayment), repayment)
  {
    SubmitTexts(r, repayment, after, casApplied);
    ZeroEffectByResponse(r, repayment);
    SubmitByResponse(r, repayment);
    VerdictsAreLegal(Unwrap(r), repayment);
    SubmitResponseCoherent(Unwrap(r), repayment, after, casApplied);
    if Unwrap(r).Returned? {
      WordIsUpper(if repayment then Unwrap(r).data.status else Unwrap(r).data.txnStatus);
    }
    hide SubmitTells, ShowsNoEffect, Whitelisted, IsTerminalReject, IntText;
  }

  lemma ReversalReply(r: HttpResponse, after: OrderStatus, casApplied: bool)
    requires ClassifyReversal(Unwrap(r)).Some?
    ensures var reply := FinalResponse(ClassifyReversal(Unwrap(r)).value, after, casApplied, false);
            && !reply.inFlight && reply.orderStatus == Some(after)
            && ReversalTells(reply, r)
            && (IsTerminal(after) || after == RESULT_UNKNOWN ==>
                  TypedFor(reply.typed, after, ShowsNoEffect(r, false), false, false))
  {
    hide IntText, IsTerminalReject;
  }

  /** A call that brought no response says nothing, of a submit or a reversal. */
  lemma TimeoutReply(repayment: bool, after: OrderStatus, casApplied: bool)
    ensures ClassifySubmit(TransportError, repayment).Some? && ClassifyReversal(TransportError).Some?
    ensures var reply := FinalResponse(ClassifySubmit(TransportError, repayment).value, after, casApplied, repayment);
            !reply.inFlight && reply.orderStatus == Some(after) && TellsNothing(reply)
    ensures var reply := FinalResponse(ClassifyReversal(TransportError).value, after, casApplied, false);
            !reply.inFlight && reply.orderStatus == Some(after) && TellsNothing(reply)
  {
  }

  /** The answer to a request whose first sending has not been answered yet: it is pending, and to be asked
      for again, whatever wedap will say. */
  predicate TellsPending(reply: Response, repayment: bool) {
    && reply.inFlight && reply.fields == AckFields("PROCESSING", None, None, None)
    && reply.errorCode == None && reply.errorMsg == None && reply.orderStatus == None
    && reply.typed == TypedFields(Some(PENDING), OP_PENDING, POLL_STATUS, repayment)
  }

  lemma InFlightReads(repayment: bool)
    ensures TellsPending(InFlightResponse(repayment), repayment)
  {
  }
}
