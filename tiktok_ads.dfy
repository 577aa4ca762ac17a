/**
 * The TikTok adapter (client/src/lib/api/adapters/tiktok-ads.ts): the
 * authorize URL (which names the client `app_id`), the JSON bodies of the
 * exchange and refresh requests, and the decoding of TikTok's
 * `{code, message, data}` envelope.
 */
module TikTokAds {
  import opened Wrappers
  import opened Json
  import opened UrlEncoding
  import opened OAuth

  const AuthorizeEndpoint: string := "https://ads.tiktok.com/marketing_api/auth"

  datatype Adapter = Adapter(appId: string, appSecret: string)
  {
    function PlatformId(): string {
      TikTokAdsId
    }

    /** The query of the authorize URL: no scope and no PKCE parameters. */
    function AuthorizeParams(redirectUri: string, state: string): seq<Param> {
      [("app_id", appId), ("redirect_uri", redirectUri), ("state", state), ("response_type", "code")]
    }

    /** `generateAuthUrl` */
    function GenerateAuthUrl(redirectUri: string, state: string): string {
      AuthorizeEndpoint + "?" + Serialize(AuthorizeParams(redirectUri, state))
    }

    /** The JSON body of the exchange request. */
    function ExchangeBody(code: string): JsonObject {
      map["app_id" := JStr(appId), "secret" := JStr(appSecret), "auth_code" := JStr(code),
          "auth_type" := JStr("authorization_code")]
    }

    /** The JSON body of the refresh request. */
    function RefreshBody(refreshToken: string): JsonObject {
      map["app_id" := JStr(appId), "secret" := JStr(appSecret), "refresh_token" := JStr(refreshToken)]
    }
  }

  /** `tokenData.advertiser_id?.toString()`: absent for null or undefined, else its string form. */
  function AccountId(v: Option<Json>): Option<Json> {
    match v
    case None => None
    case Some(JNull) => None
    case Some(j) => Some(JStr(JsString(j)))
  }

  /** The properties of `data` a result copies; a non-object `data` has none of them. */
  function DataFields(data: Json): JsonObject {
    if data.JObj? then data.fields else map[]
  }

  /** The token fields both results share, with `token_type` "bearer". */
  function TokenFields(d: JsonObject): JsonObject {
    var r := WithField(map["token_type" := JStr("bearer")], "access_token", Field(d, "access_token"));
    var r := WithField(r, "refresh_token", Field(d, "refresh_token"));
    WithField(r, "expires_in", Field(d, "expires_in"))
  }

  /**
   * An envelope answer: a response that is not ok throws with its `message` or
   * `fallback`; a `code` other than the number 0 (a missing one included)
   * throws with `message` or "TikTok API error"; a missing or null `data`
   * makes the property read throw a `TypeError`; otherwise the token fields,
   * and with `withAccount` the advertiser as account.
   */
  function DecodeEnvelope(resp: HttpResponse, fallback: string, withAccount: bool): Result<JsonObject, Failure> {
    if !resp.ok then Err(ApiError(ErrorText(Field(resp.body, "message"), fallback)))
    else if Field(resp.body, "code") != Some(JNum(0)) then
      Err(ApiError(ErrorText(Field(resp.body, "message"), "TikTok API error")))
    else match Field(resp.body, "data")
      case None => Err(TypeError)
      case Some(JNull) => Err(TypeError)
      case Some(data) =>
        var d := DataFields(data);
        var r := TokenFields(d);
        if withAccount then
          Ok(WithField(WithField(r, "account_id", AccountId(Field(d, "advertiser_id"))), "account_name", Field(d, "advertiser_name")))
        else Ok(r)
  }

  /** `exchangeCodeForTokens` given the endpoint's answer. */
  function ExchangeResult(resp: HttpResponse): Result<JsonObject, Failure> {
    DecodeEnvelope(resp, "Failed to exchange code for tokens", true)
  }

  /** `refreshAccessToken` given the endpoint's answer. */
  function RefreshResult(resp: HttpResponse): Result<JsonObject, Failure> {
    DecodeEnvelope(resp, "Failed to refresh TikTok access token", false)
  }

  // ---------------------------------------------------------------- properties

  lemma PlatformIdIsTikTok(a: Adapter)
    ensures a.PlatformId() == "tiktok_ads"
  {
  }

  /** The authorize URL goes to TikTok's endpoint and its query parses back to the parameter list. */
  lemma AuthorizeUrlParses(a: Adapter, redirectUri: string, state: string)
    ensures var url := a.GenerateAuthUrl(redirectUri, state);
      Endpoint(url) == AuthorizeEndpoint
      && ParseQuery(QueryOf(url)) == Some(a.AuthorizeParams(redirectUri, state))
  {
    QueryUrl(AuthorizeEndpoint, a.AuthorizeParams(redirectUri, state));
  }

  /** The client is named by `app_id`; there is no `client_id`, no scope and no PKCE parameter. */
  lemma AuthorizeParamsCarry(a: Adapter, redirectUri: string, state: string)
    ensures var p := a.AuthorizeParams(redirectUri, state);
      Lookup(p, "app_id") == Some(a.appId)
      && Lookup(p, "redirect_uri") == Some(redirectUri)
      && Lookup(p, "state") == Some(state)
      && Lookup(p, "response_type") == Some("code")
      && Lookup(p, "client_id") == None
      && Lookup(p, "scope") == None
      && Lookup(p, "code_challenge") == None
  {
    var p := a.AuthorizeParams(redirectUri, state);
    LookupAt(p, 0, "app_id");
    LookupAt(p, 1, "redirect_uri");
    LookupAt(p, 2, "state");
    LookupAt(p, 3, "response_type");
  }

  /** An envelope whose `code` is not the number 0, a missing code included, yields no token. */
  lemma NonZeroCodeFails(resp: HttpResponse, fallback: string, withAccount: bool)
    requires !("code" in resp.body && resp.body["code"] == JNum(0))
    ensures DecodeEnvelope(resp, fallback, withAccount).Err?
    ensures resp.ok ==>
      DecodeEnvelope(resp, fallback, withAccount) == Err(ApiError(ErrorText(Field(resp.body, "message"), "TikTok API error")))
  {
  }

  /**
   * With `code` 0 and an object `data`, the exchange returns data's
   * access_token, refresh_token and expires_in, token_type "bearer", the
   * string of advertiser_id as account_id and advertiser_name as
   * account_name; nothing else.
   */
  lemma ExchangeSuccess(resp: HttpResponse, d: JsonObject)
    requires resp.ok && "code" in resp.body && resp.body["code"] == JNum(0)
    requires "data" in resp.body && resp.body["data"] == JObj(d)
    ensures ExchangeResult(resp).Ok?
    ensures var r := ExchangeResult(resp).value;
      r["token_type"] == JStr("bearer")
      && (forall k :: k in r ==> k in {"access_token", "refresh_token", "expires_in", "token_type", "account_id", "account_name"})
      && (forall k :: k in {"access_token", "refresh_token", "expires_in"} ==> (k in r <==> k in d) && (k in d ==> r[k] == d[k]))
      && ("account_name" in r <==> "advertiser_name" in d)
      && ("advertiser_name" in d ==> r["account_name"] == d["advertiser_name"])
      && ("account_id" in r <==> "advertiser_id" in d && d["advertiser_id"] != JNull)
      && ("account_id" in r ==> r["account_id"] == JStr(JsString(d["advertiser_id"])))
  {
    var t := TokenFields(d);
    TokenFieldsMeaning(d);
    assert ExchangeResult(resp) == Ok(WithField(WithField(t, "account_id", AccountId(Field(d, "advertiser_id"))), "account_name", Field(d, "advertiser_name")));
  }

  /** The token fields: "bearer" as `token_type`, and each token property exactly when `data` has it. */
  lemma TokenFieldsMeaning(d: JsonObject)
    ensures var t := TokenFields(d);
      "token_type" in t && t["token_type"] == JStr("bearer")
      && (forall k :: k in t ==> k in {"access_token", "refresh_token", "expires_in", "token_type"})
      && (forall k :: k in {"access_token", "refresh_token", "expires_in"} ==> (k in t <==> k in d) && (k in d ==> t[k] == d[k]))
  {
  }

  /** A refresh carries the same token fields and never account fields. */
  lemma RefreshHasNoAccount(resp: HttpResponse)
    ensures RefreshResult(resp).Ok? ==>
      var r := RefreshResult(resp).value;
      "account_id" !in r && "account_name" !in r && r["token_type"] == JStr("bearer")
    ensures RefreshResult(resp).Ok? <==> ExchangeResult(resp).Ok?
  {
  }
}
