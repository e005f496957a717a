/**
 * Response classification of `_call`'s callback: a first-match decision over
 * the transport error, the decoded body and the status code.
 */
module Classifier {
  import opened Wrappers
  import opened JsValue

  /** An `Error` object, known by its message. */
  datatype JsError = JsError(message: string)

  /** What the transport hands the callback: `err`, `resp.statusCode` and the
      decoded `body`. When `err` is set, status and body are never looked at. */
  datatype Raw = Raw(err: Option<JsError>, status: int, body: Value)

  /** Why a call was rejected. */
  datatype Rejection =
    | TransportFailure(cause: JsError)
    | DomainFailure(message: string)
    | StatusFailure(status: int)
  {
    /** The error the promise rejects with: the transport's own error object,
        or a new `Error` with the domain message or the status message. */
    function Error(): JsError {
      match this
      case TransportFailure(e) => e
      case DomainFailure(msg) => JsError(msg)
      case StatusFailure(s) => JsError(StatusMessage(s))
    }
  }

  /** How a call settles. `Threw` is the TypeError raised by reading `data` of a
      null or undefined body inside the callback: the promise never settles. */
  datatype Outcome =
    | Resolved(body: Value)
    | Rejected(why: Rejection)
    | Threw

  const StatusPrefix := "Invalid status code: "

  function StatusMessage(status: int): string {
    StatusPrefix + IntToString(status)
  }

  /** The domain error a body carries: `body.data.error_message` when `body.data`
      and the message are both truthy; an empty string is no error. */
  function DomainError(body: Value): (r: Option<Value>)
    requires !body.IsNullish()
    ensures r.Some? ==> r.value.Truthy()
    ensures r.Some? <==> body.Obj? && "data" in body.props && body.props["data"].Truthy()
                         && body.props["data"].Obj? && "error_message" in body.props["data"].props
                         && body.props["data"].props["error_message"].Truthy()
    ensures r.Some? ==> r.value == body.props["data"].props["error_message"]
  {
    var data := body.Get("data");
    if data.Truthy() && data.Get("error_message").Truthy() then Some(data.Get("error_message")) else None
  }

  /** The callback's decision, first match wins: transport error, domain error
      in the body, status other than 200, otherwise the body itself. */
  function Classify(raw: Raw): (r: Outcome)
    ensures raw.err.Some? ==> r == Rejected(TransportFailure(raw.err.value))
    ensures r.Threw? <==> raw.err.None? && raw.body.IsNullish()
    ensures r.Resolved? ==> r.body == raw.body && raw.status == 200
    ensures raw.err.None? && !raw.body.IsNullish() && DomainError(raw.body).Some? ==>
              r == Rejected(DomainFailure(ToString(DomainError(raw.body).value)))
    ensures r.Rejected? && r.why.StatusFailure? ==> r.why.status == raw.status != 200
  {
    if raw.err.Some? then Rejected(TransportFailure(raw.err.value))
    else if raw.body.IsNullish() then Threw
    else match DomainError(raw.body)
      case Some(msg) => Rejected(DomainFailure(ToString(msg)))
      case None => if raw.status != 200 then Rejected(StatusFailure(raw.status)) else Resolved(raw.body)
  }

  /** A transport error rejects with exactly that error, whatever status and body
      came with it: neither is examined. */
  lemma TransportErrorFirst(e: JsError, status1: int, body1: Value, status2: int, body2: Value)
    ensures Classify(Raw(Some(e), status1, body1)) == Classify(Raw(Some(e), status2, body2))
    ensures Classify(Raw(Some(e), status1, body1)).Rejected?
    ensures Classify(Raw(Some(e), status1, body1)).why.Error() == e
  {
  }

  /** A domain error wins over the status code, including 200: the call rejects
      with the message, converted to a string, whatever the status. */
  lemma DomainErrorWinsOverStatus(body: Value, status: int)
    requires !body.IsNullish() && DomainError(body).Some?
    ensures Classify(Raw(None, status, body)) == Classify(Raw(None, 200, body))
    ensures Classify(Raw(None, status, body)) == Rejected(DomainFailure(ToString(DomainError(body).value)))
  {
  }

  /** An empty `error_message` is not an error: the body resolves on 200 and
      rejects only for its status otherwise. */
  lemma EmptyMessageIsNoError(data: map<string, Value>, rest: map<string, Value>, status: int)
    ensures var body := Obj(rest["data" := Obj(data["error_message" := Str("")])]);
            Classify(Raw(None, status, body))
            == if status == 200 then Resolved(body) else Rejected(StatusFailure(status))
  {
  }

  /** Success exactly when there is no transport error, the body is an object or
      other non-nullish value without a domain error, and the status is 200; the
      body is then passed on unchanged. */
  lemma ResolvedIff(raw: Raw)
    ensures Classify(raw).Resolved?
        <==> raw.err.None? && !raw.body.IsNullish() && DomainError(raw.body).None? && raw.status == 200
    ensures Classify(raw).Resolved? ==> Classify(raw) == Resolved(raw.body)
  {
  }

  /** A status rejection happens exactly when nothing earlier matched and the
      status is not 200, and it carries that status. */
  lemma StatusFailureIff(raw: Raw)
    ensures Classify(raw).Rejected? && Classify(raw).why.StatusFailure?
        <==> raw.err.None? && !raw.body.IsNullish() && DomainError(raw.body).None? && raw.status != 200
    ensures Classify(raw).Rejected? && Classify(raw).why.StatusFailure? ==>
              Classify(raw).why.Error() == JsError(StatusPrefix + IntToString(raw.status))
  {
  }

  /** The status message names its status unambiguously. */
  lemma StatusMessageInjective(a: int, b: int)
    ensures StatusMessage(a) == StatusMessage(b) ==> a == b
  {
    if StatusMessage(a) == StatusMessage(b) {
      assert StatusMessage(a)[|StatusPrefix|..] == IntToString(a);
      assert StatusMessage(b)[|StatusPrefix|..] == IntToString(b);
      IntToStringInjective(a, b);
    }
  }

  /** A 200 response whose body says "Not enough balance" is a rejection. */
  lemma NotEnoughBalanceOn200()
    ensures Classify(Raw(None, 200, Obj(map["data" := Obj(map["error_message" := Str("Not enough balance")])])))
         == Rejected(DomainFailure("Not enough balance"))
  {
  }

  /** A 500 response without a domain error rejects with "Invalid status code: 500". */
  lemma ServerErrorWithoutMessage()
    ensures Classify(Raw(None, 500, Obj(map["data" := Obj(map[])]))) == Rejected(StatusFailure(500))
    ensures Rejected(StatusFailure(500)).why.Error().message == "Invalid status code: 500"
  {
  }
}
