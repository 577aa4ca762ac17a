/**
 * What the three ad-platform adapters share: the platform identifiers, the
 * shape of an HTTP response as the adapters see it (`response.ok` and the
 * parsed JSON body), the errors they throw, and the JavaScript optional-string
 * test that decides whether a PKCE parameter is sent.
 */
module OAuth {
  import opened Wrappers
  import opened Json

  const GoogleAdsId: string := "google_ads"
  const FacebookAdsId: string := "facebook_ads"
  const TikTokAdsId: string := "tiktok_ads"

  /** A response of `fetch` after `response.json()`: its `ok` flag and its body object. */
  datatype HttpResponse = HttpResponse(ok: bool, body: JsonObject)

  /** What an adapter call throws: an `Error` with a message, or a `TypeError` from reading a property of null. */
  datatype Failure = ApiError(message: string) | TypeError

  /** `if (s)` for an optional string argument: given and non-empty. */
  predicate Present(s: Option<string>) {
    s.Some? && s.value != ""
  }

  /** `new Error(v || fallback).message` */
  function ErrorText(v: Option<Json>, fallback: string): (r: string)
    ensures v.Some? && Truthy(v.value) ==> r == JsString(v.value)
    ensures !(v.Some? && Truthy(v.value)) ==> r == fallback
  {
    if v.Some? && Truthy(v.value) then JsString(v.value) else fallback
  }

  /**
   * The object literal the adapters return, as a JSON object: a property whose
   * value is `undefined` is left out.
   */
  function WithField(o: JsonObject, k: string, v: Option<Json>): (r: JsonObject)
    ensures v.Some? ==> r == o[k := v.value]
    ensures v.None? ==> r == o
  {
    if v.Some? then o[k := v.value] else o
  }

  /**
   * The adapters' common response handling: a response that is not ok throws
   * with the message `message` picked from its body (or `fallback`); an ok
   * response is returned as it is.
   */
  function Decode(resp: HttpResponse, message: Option<Json>, fallback: string): (r: Result<JsonObject, Failure>)
    ensures r.Ok? <==> resp.ok
    ensures r.Ok? ==> r.value == resp.body
    ensures r.Err? ==> r.error == ApiError(ErrorText(message, fallback))
  {
    if resp.ok then Ok(resp.body) else Err(ApiError(ErrorText(message, fallback)))
  }
}
