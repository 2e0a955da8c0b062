/** The landing page's visit report: the visitor's country from a geolocation answer, and
    `sendWebhook`, which invokes `forward-webhook` up to three times with a growing pause. */
module VisitWebhook {
  import opened Wrappers
  import opened JsValues
  import opened ForwardWebhook

  /** The answer of the geolocation lookup: the call or its JSON failed, or the parsed body. */
  datatype Geolocation = GeoFailed | GeoBody(data: JsValue)

  /** `data.country_name || 'Unknown'`; a failed lookup is 'Unknown' as well. */
  function GetUserCountry(g: Geolocation): (country: JsValue)
    ensures Truthy(country)
    ensures g.GeoBody? && Truthy(Get(g.data, "country_name")) ==> country == Get(g.data, "country_name")
    ensures !(g.GeoBody? && Truthy(Get(g.data, "country_name"))) ==> country == JsString("Unknown")
  {
    match g
    case GeoFailed => JsString("Unknown")
    case GeoBody(data) =>
      var name := Get(data, "country_name");
      if Truthy(name) then name else JsString("Unknown")
  }

  /** `webhookData`: the country, the `ref_id` of the page address (or `null`), the time and
      the page address. */
  datatype WebhookData = WebhookData(country: JsValue, refId: Option<string>, timestamp: string, url: string)

  /** What `supabase.functions.invoke('forward-webhook', ...)` gives: `{ data, error }` with
      `error` truthy or not, or a throw. */
  datatype Invocation = Invoked(data: JsValue, error: bool) | InvokeThrew

  const MaxAttempts := 3

  /** An attempt succeeds when `error` is falsy and `data?.success === true`. */
  predicate Delivered(i: Invocation)
  {
    i.Invoked? && !i.error && Get(i.data, "success") == JsBool(true)
  }

  /** The pause after failed attempt `attempt`, in milliseconds. */
  function Backoff(attempt: nat): nat
  {
    attempt * 1000
  }

  /** Sends the visit. `invoke(k)` is the outcome of the `k`-th invocation. The result is the
      number of invocations made and the pauses taken between them; nothing is thrown. */
  method SendWebhook(data: WebhookData, invoke: nat -> Invocation) returns (attempts: nat, pauses: seq<nat>)
    ensures 1 <= attempts <= MaxAttempts
    ensures forall k :: 1 <= k < attempts ==> !Delivered(invoke(k))
    ensures attempts < MaxAttempts ==> Delivered(invoke(attempts))
    ensures |pauses| == attempts - 1
    ensures forall i :: 0 <= i < |pauses| ==> pauses[i] == Backoff(i + 1)
  {
    pauses := [];
    var attempt := 1;
    while attempt <= MaxAttempts
      invariant 1 <= attempt <= MaxAttempts
      invariant forall k :: 1 <= k < attempt ==> !Delivered(invoke(k))
      invariant |pauses| == attempt - 1
      invariant forall i :: 0 <= i < |pauses| ==> pauses[i] == Backoff(i + 1)
      decreases MaxAttempts - attempt
    {
      var answer := invoke(attempt);
      if Delivered(answer) {
        return attempt, pauses;
      }
      if attempt < MaxAttempts {
        pauses := pauses + [Backoff(attempt)];
        attempt := attempt + 1;
        continue;
      }
      break;
    }
    attempts := attempt;
  }

  /** The invocation outcome the client library reports for an answer of `forward-webhook`: the
      JSON for a 2xx status, an error otherwise. */
  function InvokeOf(r: Reply): Invocation
  {
    if Ok(r.Status()) then Invoked(ReplyJson(r), false) else Invoked(JsNull, true)
  }

  /** The page counts an attempt as a success exactly when the function forwarded the visit. */
  lemma DeliveredIffForwarded(r: Reply)
    ensures Delivered(InvokeOf(r)) <==> r.Forwarded?
  {
    FailureStatusAndSuccessFlag(r);
  }

  /** The body the page sends, as the function destructures it. */
  function ToRequest(d: WebhookData): Request
  {
    Fields(d.country, match d.refId case Some(s) => JsString(s) case None => JsNull,
           JsString(d.url), JsString(d.timestamp))
  }

  /** The page's `ref_id` always passes; its country passes unless the geolocation answer's
      `country_name` is a truthy value that is not a string. */
  lemma VisitRequestChecks(g: Geolocation, refId: Option<string>, timestamp: string, url: string)
    ensures var req := ToRequest(WebhookData(GetUserCountry(g), refId, timestamp, url));
      RefIdAcceptable(req.refId) &&
      (CountryGiven(req.country) <==>
        !(g.GeoBody? && Truthy(Get(g.data, "country_name")) && !Get(g.data, "country_name").JsString?))
  {
  }
}
