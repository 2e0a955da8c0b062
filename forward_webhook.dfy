/** The `forward-webhook` edge function: checks `country` and `ref_id`, posts the four fields to
    the analytics webhook and turns the downstream outcome into its own answer. */
module ForwardWebhook {
  import opened Wrappers
  import opened JsText
  import opened JsValues

  /** The four destructured fields of the JSON body, or the message of what threw while reading
      them (`req.json()` on a body that is not JSON, or destructuring a `null` body). */
  datatype Request =
    | Fields(country: JsValue, refId: JsValue, url: JsValue, timestamp: JsValue)
    | Threw(message: string)

  /** `{ country, ref_id, url, timestamp }` as posted downstream. */
  datatype Payload = Payload(country: string, refId: JsValue, url: JsValue, timestamp: JsValue)

  /** The text of the downstream body: `text()` failed, or the text and what `JSON.parse` makes
      of it (`None`: it throws). */
  datatype BodyText = TextFailed | Text(text: string, parsed: Option<JsValue>)

  /** What `fetch` did: it threw (network error, the 10 s abort), or it answered. */
  datatype Downstream =
    | FetchThrew(message: string)
    | Answered(status: int, statusText: string, body: BodyText)

  /** The function's answer; `Status` is its HTTP status. */
  datatype Reply =
    | Rejected(error: string)
    | WebhookFailed(status: int, details: string)
    | Forwarded(response: JsValue)
    | Internal(error: string)
  {
    function Status(): int
    {
      match this
      case Rejected(_) => 400
      case WebhookFailed(status, _) => status
      case Forwarded(_) => 200
      case Internal(_) => 500
    }
  }

  const CountryRequired := "country is required"
  const RefIdInvalid := "ref_id must be a string or null"
  const WebhookRequestFailed := "Webhook request failed"

  /** `!country || typeof country !== 'string'` does not hold. */
  predicate CountryGiven(country: JsValue)
  {
    Truthy(country) && country.JsString?
  }

  /** `ref_id` is `null`, `undefined` or a string. */
  predicate RefIdAcceptable(refId: JsValue)
  {
    refId.JsNull? || refId.JsUndefined? || refId.JsString?
  }

  /** `Response.ok`. */
  predicate Ok(status: int)
  {
    200 <= status <= 299
  }

  /** `responseBody` after the guarded parse: `null` for an empty, unreadable or invalid body. */
  function ResponseBody(b: BodyText): (v: JsValue)
    ensures b.TextFailed? || (b.Text? && (b.text == "" || b.parsed.None?)) ==> v == JsNull
    ensures b.Text? && b.text != "" && b.parsed.Some? ==> v == b.parsed.value
  {
    match b
    case TextFailed => JsNull
    case Text(t, parsed) => if t == "" then JsNull else parsed.GetOr(JsNull)
  }

  /** The JSON the answer carries. */
  function ReplyJson(r: Reply): JsValue
  {
    match r
    case Rejected(e) => JsObject(map["success" := JsBool(false), "error" := JsString(e)])
    case WebhookFailed(status, details) =>
      JsObject(map["success" := JsBool(false), "error" := JsString(WebhookRequestFailed),
                   "details" := JsString(details), "status" := JsNumber(status as real)])
    case Forwarded(v) => JsObject(map["success" := JsBool(true), "forwarded" := JsBool(true), "response" := v])
    case Internal(e) => JsObject(map["success" := JsBool(false), "error" := JsString(e)])
  }

  /** Handles one POST. `downstream` is what the `fetch` of the webhook does; `sent` is the
      payload it was given, `None` when no request went out. */
  method Forward(req: Request, downstream: Downstream) returns (reply: Reply, sent: Option<Payload>)
    ensures req.Threw? ==> reply == Internal(OrElse(req.message, "Internal error"))
    ensures req.Fields? && !CountryGiven(req.country) ==> reply == Rejected(CountryRequired)
    ensures (req.Fields? && CountryGiven(req.country) && !RefIdAcceptable(req.refId)) ==>
      reply == Rejected(RefIdInvalid)
    ensures sent.Some? <==> req.Fields? && CountryGiven(req.country) && RefIdAcceptable(req.refId)
    ensures sent.Some? ==> sent.value == Payload(req.country.s, req.refId, req.url, req.timestamp)
    ensures sent.Some? && downstream.FetchThrew? ==>
      reply == WebhookFailed(500, OrElse(downstream.message, "Fetch error"))
    ensures sent.Some? && downstream.Answered? && !Ok(downstream.status) ==>
      reply == WebhookFailed(downstream.status, downstream.statusText)
    ensures sent.Some? && downstream.Answered? && Ok(downstream.status) ==>
      reply == Forwarded(ResponseBody(downstream.body))
    ensures reply.Forwarded? <==> sent.Some? && downstream.Answered? && Ok(downstream.status)
  {
    if req.Threw? {
      return Internal(OrElse(req.message, "Internal error")), None;
    }
    if !Truthy(req.country) || !req.country.JsString? {
      return Rejected(CountryRequired), None;
    }
    if !req.refId.JsNull? && !req.refId.JsUndefined? && !req.refId.JsString? {
      return Rejected(RefIdInvalid), None;
    }
    var payload := Payload(req.country.s, req.refId, req.url, req.timestamp);
    sent := Some(payload);

    var webhookRes: Option<Downstream> := None;
    var errorText: Option<string> := None;
    match downstream {
      case FetchThrew(message) =>
        errorText := Some(OrElse(message, "Fetch error"));
      case Answered(_, _, _) =>
        webhookRes := Some(downstream);
    }

    if webhookRes.None? || !Ok(webhookRes.value.status) {
      var status := if webhookRes.Some? then webhookRes.value.status else 500;
      var statusText := if webhookRes.Some? then webhookRes.value.statusText else "Unknown error";
      var details := if errorText.Some? then OrElse(errorText.value, statusText) else statusText;
      return WebhookFailed(status, details), sent;
    }

    var responseBody := ResponseBody(webhookRes.value.body);
    reply := Forwarded(responseBody);
  }

  /** A failed downstream answer keeps its status; a thrown fetch reports 500. Only a forwarded
      answer says `success: true`. */
  lemma FailureStatusAndSuccessFlag(r: Reply)
    ensures r.WebhookFailed? ==> r.Status() == r.status
    ensures Get(ReplyJson(r), "success") == JsBool(true) <==> r.Forwarded?
    ensures r.Rejected? ==> r.Status() == 400
  {
  }

  /** `null`, a missing field and any string pass the `ref_id` check; numbers, booleans,
      arrays and objects do not. */
  lemma RefIdCases(v: JsValue)
    ensures RefIdAcceptable(v) <==> !(v.JsBool? || v.JsNumber? || v.JsNaN? || v.JsArray? || v.JsObject?)
  {
  }

  /** The country check accepts exactly the non-empty strings. */
  lemma CountryCases(v: JsValue)
    ensures CountryGiven(v) <==> v.JsString? && v.s != ""
  {
  }
}
