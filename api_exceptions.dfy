/**
 * `sanitized_exception_handler` and `_normalize_errors` of
 * apps/api/exceptions.py: every error response becomes `{code, message}`
 * (plus `errors` for client errors), and server errors never carry
 * details.
 */
module ApiExceptions {
  import opened Wrappers
  import opened PyValues

  /** `GENERIC_MESSAGE`. */
  const GenericMessage: string := "An unexpected error occurred. Please try again later."

  /** `BASIC_MESSAGE_MAP`: the fixed messages of the common client errors. */
  function BasicMessage(status: int): (r: Option<string>)
    ensures r.Some? <==> status in {400, 401, 403, 404}
  {
    if status == 400 then Some("Request validation failed.")
    else if status == 401 then Some("Authentication credentials were not provided or are invalid.")
    else if status == 403 then Some("You do not have permission to perform this action.")
    else if status == 404 then Some("The requested resource could not be found.")
    else None
  }

  // ------------------------------------------------------------ _normalize_errors

  /** A value JSON can carry as it is: `None`, strings, and lists and dicts of such values. */
  predicate Primitive(v: PyValue)
    decreases v
  {
    match v
    case PyNone => true
    case PyStr(_) => true
    case PyList(items) => forall k | 0 <= k < |items| :: var x := items[k]; assert x in items; Primitive(x)
    case PyDict(entries) =>
      forall k | 0 <= k < |entries| :: var e := entries[k]; assert e in entries; Primitive(e.1)
    case _ => false
  }

  /**
   * `_normalize_errors`: `None` stays `None`, a list or tuple becomes a
   * list of as many normalised items, a dict keeps its keys with normalised
   * values, and anything else (an `ErrorDetail`, a number) becomes its
   * `str()`.
   */
  function Normalize(v: PyValue): (r: PyValue)
    decreases v
    ensures v.PyNone? <==> r.PyNone?
    ensures v.PyList? || v.PyTuple? ==> r.PyList? && |r.items| == |v.items|
    ensures v.PyDict? ==> r.PyDict? && Keys(r.entries) == Keys(v.entries)
    ensures !(v.PyNone? || v.PyList? || v.PyTuple? || v.PyDict?) ==> r == PyStr(Str(v))
  {
    match v
    case PyNone => PyNone
    case PyList(items) => PyList(NormalizeAll(v, items))
    case PyTuple(items) => PyList(NormalizeAll(v, items))
    case PyDict(entries) =>
      PyDict(seq(|entries|, k requires 0 <= k < |entries| =>
        var e := entries[k];
        assert e in entries;
        (e.0, Normalize(e.1))))
    case _ => PyStr(Str(v))
  }

  /** The normalised items of a container `parent`. */
  function NormalizeAll(ghost parent: PyValue, items: seq<PyValue>): (r: seq<PyValue>)
    requires forall x | x in items :: x < parent
    ensures |r| == |items|
    decreases parent, 0
  {
    seq(|items|, k requires 0 <= k < |items| => var x := items[k]; assert x in items; Normalize(x))
  }

  /** Whatever DRF put in the error data, the normalised form is plain JSON. */
  lemma {:induction false} NormalizeIsPrimitive(v: PyValue)
    decreases v
    ensures Primitive(Normalize(v))
  {
    match v
    case PyList(items) =>
      forall k | 0 <= k < |items| ensures Primitive(Normalize(v).items[k]) {
        assert items[k] in items;
        assert Normalize(v).items[k] == Normalize(items[k]);
        NormalizeIsPrimitive(items[k]);
      }
    case PyTuple(items) =>
      forall k | 0 <= k < |items| ensures Primitive(Normalize(v).items[k]) {
        assert items[k] in items;
        assert Normalize(v).items[k] == Normalize(items[k]);
        NormalizeIsPrimitive(items[k]);
      }
    case PyDict(entries) =>
      forall k | 0 <= k < |entries| ensures Primitive(Normalize(v).entries[k].1) {
        assert entries[k] in entries;
        NormalizeIsPrimitive(entries[k].1);
      }
    case _ =>
  }

  /** Plain JSON is left exactly as it is. */
  lemma {:induction false} NormalizeFixesPrimitive(v: PyValue)
    requires Primitive(v)
    decreases v
    ensures Normalize(v) == v
  {
    match v
    case PyList(items) =>
      forall k | 0 <= k < |items| ensures Normalize(v).items[k] == items[k] {
        assert items[k] in items;
        assert Normalize(v).items[k] == Normalize(items[k]);
        NormalizeFixesPrimitive(items[k]);
      }
    case PyDict(entries) =>
      forall k | 0 <= k < |entries| ensures Normalize(v).entries[k] == entries[k] {
        assert entries[k] in entries;
        NormalizeFixesPrimitive(entries[k].1);
      }
    case _ =>
  }

  /** Normalising twice is normalising once. */
  lemma NormalizeIdempotent(v: PyValue)
    ensures Normalize(Normalize(v)) == Normalize(v)
  {
    NormalizeIsPrimitive(v);
    NormalizeFixesPrimitive(Normalize(v));
  }

  // ------------------------------------------------------------ the handler

  /** What DRF's own handler produced for the exception, if anything. */
  datatype DrfResponse = DrfResponse(status: int, data: PyValue, statusText: string)

  /** The status and body of the response the handler returns. */
  datatype Reply = Reply(status: int, data: PyValue)

  /** `{"code": code, "message": message}`. */
  function Body(code: PyValue, message: string): (b: PyValue)
    ensures b.PyDict? && Keys(b.entries) == ["code", "message"]
  {
    PyDict([("code", code), ("message", PyStr(message))])
  }

  /**
   * The error code: the data's own truthy `code`, else the exception's
   * truthy `default_code`, else `"error"`; only a dict can supply its own.
   */
  function ErrorCode(data: PyValue, defaultCode: Option<PyValue>): (c: PyValue)
    ensures Truthy(c)
    ensures data.PyDict? && Get(data.entries, "code").Some? && Truthy(Get(data.entries, "code").value) ==>
      c == Get(data.entries, "code").value
    ensures !(data.PyDict? && Get(data.entries, "code").Some? && Truthy(Get(data.entries, "code").value)) ==>
      c == if defaultCode.Some? && Truthy(defaultCode.value) then defaultCode.value else PyStr("error")
  {
    var own := if data.PyDict? then Get(data.entries, "code") else None;
    if own.Some? && Truthy(own.value) then own.value
    else if defaultCode.Some? && Truthy(defaultCode.value) then defaultCode.value
    else PyStr("error")
  }

  /** The body of a 4xx response: code, message, and the normalised errors when there are any. */
  function ClientErrorBody(response: DrfResponse, defaultCode: Option<PyValue>): (b: PyValue)
    ensures b.PyDict? && (Keys(b.entries) == ["code", "message"] || Keys(b.entries) == ["code", "message", "errors"])
    ensures Get(b.entries, "code") == Some(ErrorCode(response.data, defaultCode))
    ensures Get(b.entries, "message") == Some(PyStr(BasicMessage(response.status).GetOr(response.statusText)))
    ensures Truthy(Normalize(response.data)) ==> Get(b.entries, "errors") == Some(Normalize(response.data))
    ensures !Truthy(Normalize(response.data)) ==> Get(b.entries, "errors").None? && |b.entries| == 2
  {
    var errors := Normalize(response.data);
    var base := [("code", ErrorCode(response.data, defaultCode)),
                 ("message", PyStr(BasicMessage(response.status).GetOr(response.statusText)))];
    if Truthy(errors) then
      GetSnoc(base, "errors", errors, "code");
      GetSnoc(base, "errors", errors, "message");
      GetSnoc(base, "errors", errors, "errors");
      PyDict(base + [("errors", errors)])
    else PyDict(base)
  }

  /**
   * The response `sanitized_exception_handler` returns: a 500 with the
   * generic message when DRF had none; the generic message with code
   * `"server_error"` for every 5xx; the client error body for 4xx; the
   * generic message with the computed code for anything else.
   */
  function HandlerReply(response: Option<DrfResponse>, defaultCode: Option<PyValue>): (r: Reply)
    ensures response.None? ==> r == Reply(500, Body(PyStr("server_error"), GenericMessage))
    ensures response.Some? ==> r.status == response.value.status
    ensures response.Some? && response.value.status >= 500 ==>
      r.data == Body(PyStr("server_error"), GenericMessage)
    ensures response.Some? && 400 <= response.value.status < 500 ==>
      r.data == ClientErrorBody(response.value, defaultCode)
    ensures response.Some? && response.value.status < 400 ==>
      r.data == Body(ErrorCode(response.value.data, defaultCode), GenericMessage)
  {
    if response.None? then Reply(500, Body(PyStr("server_error"), GenericMessage))
    else
      var resp := response.value;
      if resp.status >= 500 then Reply(resp.status, Body(PyStr("server_error"), GenericMessage))
      else if 400 <= resp.status then Reply(resp.status, ClientErrorBody(resp, defaultCode))
      else Reply(resp.status, Body(ErrorCode(resp.data, defaultCode), GenericMessage))
  }

  /**
   * Nothing of a server failure reaches the client: the reply to a missing
   * or 5xx response depends on its status alone, never on the error data,
   * the status text or the exception.
   */
  lemma ServerErrorsRevealNothing(a: Option<DrfResponse>, b: Option<DrfResponse>, ca: Option<PyValue>, cb: Option<PyValue>)
    requires a.None? || a.value.status >= 500
    requires b.None? || b.value.status >= 500
    requires (if a.Some? then a.value.status else 500) == (if b.Some? then b.value.status else 500)
    ensures HandlerReply(a, ca) == HandlerReply(b, cb)
  {
  }

  /** Every reply body is a dict holding a truthy code and a textual message, and at most an `errors` key besides. */
  lemma ReplyShape(response: Option<DrfResponse>, defaultCode: Option<PyValue>)
    ensures
      var body := HandlerReply(response, defaultCode).data;
      && body.PyDict?
      && Get(body.entries, "code").Some? && Truthy(Get(body.entries, "code").value)
      && Get(body.entries, "message").Some? && Get(body.entries, "message").value.PyStr?
      && (Keys(body.entries) == ["code", "message"] || Keys(body.entries) == ["code", "message", "errors"])
  {
    var body := HandlerReply(response, defaultCode).data;
    if response.None? || response.value.status >= 500 {
      assert body == Body(PyStr("server_error"), GenericMessage);
    } else if response.value.status < 400 {
      assert body == Body(ErrorCode(response.value.data, defaultCode), GenericMessage);
    } else {
      assert body == ClientErrorBody(response.value, defaultCode);
    }
  }

  // ------------------------------------------------------------ responses in place

  /** A DRF response; the handler may rewrite the data of the one DRF produced. */
  class Response {
    var statusCode: int
    var data: PyValue
    const statusText: string

    constructor (statusCode: int, data: PyValue, statusText: string)
      ensures this.statusCode == statusCode && this.data == data && this.statusText == statusText
    {
      this.statusCode := statusCode;
      this.data := data;
      this.statusText := statusText;
    }
  }

  /** The value a (possibly missing) response stands for. */
  function Snapshot(response: Response?): (r: Option<DrfResponse>)
    reads response
    ensures r.None? <==> response == null
  {
    if response == null then None
    else Some(DrfResponse(response.statusCode, response.data, response.statusText))
  }

  /**
   * `sanitized_exception_handler`, given what DRF's handler returned: a 4xx
   * response has its data overwritten in place and is returned itself;
   * every other case returns a new response and leaves DRF's untouched.
   */
  method SanitizedExceptionHandler(response: Response?, defaultCode: Option<PyValue>) returns (out: Response)
    modifies response
    ensures Reply(out.statusCode, out.data) == HandlerReply(old(Snapshot(response)), defaultCode)
    ensures response != null && 400 <= old(response.statusCode) < 500 ==> out == response
    ensures !(response != null && 400 <= old(response.statusCode) < 500) ==>
      && fresh(out)
      && (response != null ==> response.data == old(response.data))
  {
    if response == null {
      out := new Response(500, Body(PyStr("server_error"), GenericMessage), "Internal Server Error");
      return;
    }
    var resp := Snapshot(response);
    var code := ErrorCode(response.data, defaultCode);
    if response.statusCode >= 500 {
      out := new Response(response.statusCode, Body(PyStr("server_error"), GenericMessage), response.statusText);
    } else if 400 <= response.statusCode {
      response.data := ClientErrorBody(resp.value, defaultCode);
      out := response;
    } else {
      out := new Response(response.statusCode, Body(code, GenericMessage), response.statusText);
    }
  }
}
