/**
 * Fetching connection parameters from a REST endpoint: recognising an
 * endpoint descriptor, shaping the POST request and turning the response
 * into connection parameters or a `StartBotError`.  The fetch itself is
 * an input (its result), and so is the JSON body the response carried.
 */
module RestHelpers {
  import opened Wrappers
  import opened Json
  import Text
  import Utf8
  import Errors

  /** A JavaScript value as `isConnectionEndpoint` may receive it. */
  datatype JsValue = Undefined | Callable | Value(json: Json)

  /** `typeof value === "object" && value !== null`: plain objects and arrays. */
  predicate IsObject(v: JsValue) {
    v.Value? && (v.json.Obj? || v.json.Arr?)
  }

  /** `Object.keys(value)`: member names of an object, index strings of an array. */
  function Keys(v: JsValue): (ks: seq<string>)
    requires IsObject(v)
    ensures v.json.Obj? ==> |ks| == |v.json.members| && forall i :: 0 <= i < |ks| ==> ks[i] == v.json.members[i].0
    ensures v.json.Arr? ==> |ks| == |v.json.items| && forall i :: 0 <= i < |ks| ==> ks[i] == Text.IntText(i)
    ensures v.json.Obj? ==> forall k :: k in ks <==> exists i :: 0 <= i < |v.json.members| && v.json.members[i].0 == k
    ensures v.json.Arr? ==> forall k :: k in ks ==> Text.AllDigits(k)
    ensures v.json.Arr? ==> "endpoint" !in ks
  {
    match v.json
    case Obj(ms) => seq(|ms|, i requires 0 <= i < |ms| => ms[i].0)
    case Arr(xs) => seq(|xs|, i => Text.IntText(i))
  }

  /**
   * `isConnectionEndpoint(value)`: an object that lists "endpoint" among
   * its own keys, whose endpoint value is a string.
   */
  function IsConnectionEndpoint(v: JsValue): (r: bool)
    ensures !IsObject(v) ==> !r
    ensures v.Value? && v.json.Arr? ==> !r
    ensures v.Value? && v.json.Obj? ==>
      (r <==> exists i :: 0 <= i < |v.json.members| && v.json.members[i].0 == "endpoint"
                         && v.json.members[i].1.Str?
                         && forall j :: i < j < |v.json.members| ==> v.json.members[j].0 != "endpoint")
  {
    if IsObject(v) && "endpoint" in Keys(v) then
      match v.json
      case Obj(ms) =>
        var e := Lookup(ms, "endpoint");
        e.Some? && e.value.Str?
      case Arr(_) =>
        // an array has no member named "endpoint"
        false
    else
      false
  }

  /** The descriptor a caller passes instead of ready-made connection parameters. */
  datatype ConnectionEndpoint = ConnectionEndpoint(
    endpoint: string,
    headers: seq<(string, string)>,
    requestData: Option<Json>,
    timeout: Option<int>)

  datatype Request = Request(
    url: string,
    httpMethod: string,
    mode: string,
    headers: seq<(string, string)>,
    body: Option<string>)

  /**
   * The request `getTransportConnectionParams` sends: a CORS POST to the
   * endpoint, JSON content type first, then the caller's headers, and the
   * JSON text of `requestData` as body (no body when it is undefined).
   */
  function BuildRequest(opts: ConnectionEndpoint): (r: Request)
    ensures r.url == opts.endpoint && r.httpMethod == "POST" && r.mode == "cors"
    ensures |r.headers| == |opts.headers| + 1
    ensures r.headers[0] == ("Content-Type", "application/json")
    ensures r.headers[1..] == opts.headers
    ensures opts.requestData.None? <==> r.body.None?
    ensures opts.requestData.Some? ==> r.body == Some(Serialize(opts.requestData.value))
  {
    var body := if opts.requestData.Some? then Some(Serialize(opts.requestData.value)) else None;
    Request(opts.endpoint, "POST", "cors", [("Content-Type", "application/json")] + opts.headers, body)
  }

  /** The request body is the JSON text of `requestData`, as many UTF-8 bytes as its reference size. */
  lemma RequestBodySize(opts: ConnectionEndpoint)
    requires opts.requestData.Some?
    ensures BuildRequest(opts).body.Some?
    ensures |Utf8.Encode(BuildRequest(opts).body.value)| == SizeOf(opts.requestData.value)
  {
    SerializedSize(opts.requestData.value);
  }

  // ---------------------------------------------------------------------
  // Responses and how they settle the returned promise.

  /** A response; `body` is `None` when its text is not JSON. */
  datatype Response = Response(ok: bool, status: int, statusText: string, body: Option<Json>)

  /** What the fetch did: answered, failed, or had not answered when the handshake timer fired. */
  datatype FetchResult = Responded(response: Response) | FetchFailed | Stalled

  /**
   * How the promise returned by `getTransportConnectionParams` ends up;
   * `TimedOut` is the plain `Error("Timed out")` of the handshake timer.
   */
  datatype Settlement = Resolved(params: Json) | Rejected(error: Errors.RtviError) | TimedOut | Pending

  /** The timer is armed only for a truthy timeout: present and not zero. */
  predicate HasTimer(opts: ConnectionEndpoint) {
    opts.timeout.Some? && opts.timeout.value != 0
  }

  /** `String(value)` for a JSON value, as the `Error` constructor applies it to a message. */
  function DisplayString(j: Json): string
    decreases j, 1
  {
    match j
    case Null => "null"
    case Bool(b) => if b then "true" else "false"
    case Int(i) => Text.IntText(i)
    case Str(s) => s
    case Arr(xs) => JoinDisplay(xs)
    case Obj(_) => "[object Object]"
  }

  /** `Array.prototype.join(",")`: a null element prints as nothing. */
  function JoinDisplay(xs: seq<Json>): string
    decreases xs, 0
  {
    if xs == [] then ""
    else
      var first := if xs[0].Null? then "" else DisplayString(xs[0]);
      if |xs| == 1 then first else first + "," + JoinDisplay(xs[1..])
  }

  /**
   * A property read on the parsed error body: `undefined` on anything but
   * an object, and a stored `null` reads as absent for `??`.
   */
  function Field(body: Json, key: string): (r: Option<Json>)
    ensures r.Some? ==> body.Obj? && r.value != Null
  {
    match body
    case Obj(ms) =>
      var v := Lookup(ms, key);
      if v.Some? && v.value != Null then v else None
    case _ => None
  }

  /** `errResp.info ?? errResp.detail ?? res.statusText`. */
  function RejectionMessage(body: Json, statusText: string): (m: string)
    ensures Field(body, "info").Some? ==> m == DisplayString(Field(body, "info").value)
    ensures Field(body, "info").None? && Field(body, "detail").Some? ==> m == DisplayString(Field(body, "detail").value)
    ensures Field(body, "info").None? && Field(body, "detail").None? ==> m == statusText
  {
    match Field(body, "info")
    case Some(info) => DisplayString(info)
    case None =>
      match Field(body, "detail")
      case Some(detail) => DisplayString(detail)
      case None => statusText
  }

  /**
   * The settlement as the code is written.  Three paths never settle: a
   * successful response whose body is not JSON, and an error response
   * whose body is not JSON or is `null`; in each the rejection of an inner
   * promise is dropped, and the timeout is cleared before it can fire.
   */
  function SettleAsWritten(opts: ConnectionEndpoint, f: FetchResult): (s: Settlement)
    ensures s.Pending? <==>
      || (f.Stalled? && !HasTimer(opts))
      || (f.Responded? && f.response.body.None?)
      || (f.Responded? && !f.response.ok && f.response.body == Some(Null))
    ensures s.Resolved? <==> f.Responded? && f.response.ok && f.response.body.Some?
    ensures s.Resolved? ==> s.params == f.response.body.value
    ensures s.TimedOut? <==> f.Stalled? && HasTimer(opts)
    ensures s.Rejected? ==> s.error.kind == Errors.StartBot
    ensures s.Rejected? && f.Responded? ==> s.error.status == Some(f.response.status)
    ensures s.Rejected? && f.Responded? ==>
      s.error.message == RejectionMessage(f.response.body.value, f.response.statusText)
  {
    match f
    case Stalled => if HasTimer(opts) then TimedOut else Pending
    case FetchFailed => Rejected(Errors.NewStartBotError(None, None))
    case Responded(res) =>
      if res.ok then
        if res.body.Some? then Resolved(res.body.value) else Pending
      else if res.body.None? || res.body.value == Null then Pending
      else Rejected(Errors.NewStartBotError(Some(RejectionMessage(res.body.value, res.statusText)), Some(res.status)))
  }

  /** An error response with an HTML body: the promise as written never settles. */
  lemma NonJsonErrorBodyNeverSettles()
    ensures forall opts :: SettleAsWritten(opts, Responded(Response(false, 502, "Bad Gateway", None))) == Pending
  {
  }

  /**
   * The settlement with every path handled: an unreadable or `null` error
   * body falls back to the status text, an unreadable success body rejects
   * like a failed fetch.  Only a fetch that never answers, with no timer
   * armed, leaves the promise pending.
   */
  function Settle(opts: ConnectionEndpoint, f: FetchResult): (s: Settlement)
    ensures s.Pending? <==> f.Stalled? && !HasTimer(opts)
    ensures !SettleAsWritten(opts, f).Pending? ==> s == SettleAsWritten(opts, f)
    ensures s.Resolved? <==> f.Responded? && f.response.ok && f.response.body.Some?
    ensures s.Resolved? ==> s.params == f.response.body.value
    ensures s.Rejected? ==> s.error.kind == Errors.StartBot
    ensures f.Responded? && !f.response.ok ==> s.Rejected? && s.error.status == Some(f.response.status)
    ensures f.Responded? && !f.response.ok && (f.response.body.None? || f.response.body == Some(Null)) ==>
      s.error.message == f.response.statusText
    ensures f.Responded? && !f.response.ok && f.response.body.Some? && f.response.body.value != Null ==>
      s.error.message == RejectionMessage(f.response.body.value, f.response.statusText)
    ensures f.FetchFailed? ==> s == Rejected(Errors.NewStartBotError(None, None))
    ensures s.TimedOut? <==> f.Stalled? && HasTimer(opts)
  {
    match f
    case Stalled => if HasTimer(opts) then TimedOut else Pending
    case FetchFailed => Rejected(Errors.NewStartBotError(None, None))
    case Responded(res) =>
      if res.ok then
        if res.body.Some? then Resolved(res.body.value) else Rejected(Errors.NewStartBotError(None, None))
      else
        var message := if res.body.None? || res.body.value == Null then res.statusText
                       else RejectionMessage(res.body.value, res.statusText);
        Rejected(Errors.NewStartBotError(Some(message), Some(res.status)))
  }

  /** A failed fetch rejects with the default start error: default text, status 500. */
  lemma FetchFailureDefaults(opts: ConnectionEndpoint)
    ensures Settle(opts, FetchFailed).error.message == Errors.StartBotDefault
    ensures Settle(opts, FetchFailed).error.status == Some(500)
  {
  }
}
