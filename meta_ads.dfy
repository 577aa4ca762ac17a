/**
 * The Meta (Facebook/Instagram) adapter (client/src/lib/api/adapters/meta-ads.ts):
 * the v17.0 dialog URL, the two-hop exchange (authorization code for a
 * short-lived token, then that token for a long-lived one), the
 * `fb_exchange_token` refresh, and the flattening of Meta's action lists into
 * a conversion count.
 */
module MetaAds {
  import opened Wrappers
  import opened Json
  import opened UrlEncoding
  import opened OAuth

  const DialogEndpoint: string := "https://www.facebook.com/v17.0/dialog/oauth"
  const GraphHost: string := "https://graph.facebook.com"
  const TokenEndpoint: string := GraphHost + "/v17.0/oauth/access_token"

  datatype Adapter = Adapter(appId: string, appSecret: string)
  {
    function PlatformId(): string {
      FacebookAdsId
    }

    /** The query of the dialog URL. */
    function AuthorizeParams(redirectUri: string, state: string): seq<Param> {
      [("client_id", appId), ("redirect_uri", redirectUri), ("state", state),
       ("response_type", "code"), ("scope", "ads_management,ads_read")]
    }

    /** `generateAuthUrl` */
    function GenerateAuthUrl(redirectUri: string, state: string): string {
      DialogEndpoint + "?" + Serialize(AuthorizeParams(redirectUri, state))
    }

    /** The query of the first hop: the authorization code for a short-lived token. */
    function ExchangeParams(code: string, redirectUri: string): seq<Param> {
      [("client_id", appId), ("client_secret", appSecret), ("redirect_uri", redirectUri), ("code", code)]
    }

    /**
     * The query of an `fb_exchange_token` grant. The second hop sends the first
     * answer's `access_token` here, which prints as "undefined" when it is missing.
     */
    function FbExchangeParams(token: string): seq<Param> {
      [("grant_type", "fb_exchange_token"), ("client_id", appId), ("client_secret", appSecret),
       ("fb_exchange_token", token)]
    }

    /** The URL of the second hop, built from the first hop's answer. */
    function LongLivedUrl(first: JsonObject): string {
      TokenEndpoint + "?" + Serialize(FbExchangeParams(Interpolate(Field(first, "access_token"))))
    }

    /** `refreshAccessToken` sends the current token through the same grant. */
    function RefreshUrl(refreshToken: string): string {
      TokenEndpoint + "?" + Serialize(FbExchangeParams(refreshToken))
    }
  }

  /** `errorData.error?.message` */
  function GraphErrorMessage(body: JsonObject): Option<Json> {
    match Field(body, "error")
    case Some(JObj(e)) => Field(e, "message")
    case _ => None
  }

  /**
   * `exchangeCodeForTokens` given the answers of its two requests: a failure of
   * either hop throws with Graph's error message or that hop's fixed text;
   * otherwise the result holds the long-lived token's `access_token` and
   * `expires_in` (each left out when missing) and `token_type` "bearer".
   */
  function ExchangeResult(first: HttpResponse, second: HttpResponse): Result<JsonObject, Failure> {
    if !first.ok then
      Err(ApiError(ErrorText(GraphErrorMessage(first.body), "Failed to exchange code for tokens")))
    else if !second.ok then
      Err(ApiError(ErrorText(GraphErrorMessage(second.body), "Failed to get long-lived token")))
    else
      var withToken := WithField(map["token_type" := JStr("bearer")], "access_token", Field(second.body, "access_token"));
      Ok(WithField(withToken, "expires_in", Field(second.body, "expires_in")))
  }

  /** The answer to a refresh: the body when ok, else Graph's error message or the fixed text. */
  function RefreshResult(resp: HttpResponse): Result<JsonObject, Failure> {
    Decode(resp, GraphErrorMessage(resp.body), "Failed to refresh Meta access token")
  }

  // ---------------------------------------------------------------- actions

  /** One entry of Meta's `actions` list: its `action_type` and its numeric `value`, either possibly missing. */
  datatype Action = Action(actionType: Option<string>, value: Option<int>)

  predicate IsConversion(a: Action) {
    a.actionType == Some("purchase") || a.actionType == Some("offsite_conversion")
  }

  /** `actions.filter(...)` keeping purchase and offsite_conversion entries. */
  function ConversionActions(actions: seq<Action>): (r: seq<Action>)
    ensures forall i :: 0 <= i < |r| ==> IsConversion(r[i])
    ensures forall a :: a in r <==> a in actions && IsConversion(a)
    ensures |r| <= |actions|
  {
    if actions == [] then []
    else (if IsConversion(actions[0]) then [actions[0]] else []) + ConversionActions(actions[1..])
  }

  /** `reduce((sum, a) => sum + (a.value || 0), 0)` */
  function SumValues(actions: seq<Action>): int {
    if actions == [] then 0 else actions[0].value.GetOr(0) + SumValues(actions[1..])
  }

  /** `extractConversions`: `None` stands for a missing or non-array argument. */
  function ExtractConversions(actions: Option<seq<Action>>): int {
    match actions
    case None => 0
    case Some(xs) => SumValues(ConversionActions(xs))
  }

  /** What one action contributes: its value if it is a conversion, else nothing. */
  function Contribution(a: Action): int {
    if IsConversion(a) then a.value.GetOr(0) else 0
  }

  // ---------------------------------------------------------------- properties

  lemma PlatformIdIsFacebook(a: Adapter)
    ensures a.PlatformId() == "facebook_ads"
  {
  }

  /** The dialog URL goes to the v17.0 dialog and its query parses back to the parameter list. */
  lemma AuthorizeUrlParses(a: Adapter, redirectUri: string, state: string)
    ensures var url := a.GenerateAuthUrl(redirectUri, state);
      Endpoint(url) == DialogEndpoint
      && ParseQuery(QueryOf(url)) == Some(a.AuthorizeParams(redirectUri, state))
  {
    QueryUrl(DialogEndpoint, a.AuthorizeParams(redirectUri, state));
  }

  /** The dialog query carries client_id, redirect_uri, state, response_type=code and the ads scope, with no PKCE parameter. */
  lemma AuthorizeParamsCarry(a: Adapter, redirectUri: string, state: string)
    ensures var p := a.AuthorizeParams(redirectUri, state);
      Lookup(p, "client_id") == Some(a.appId)
      && Lookup(p, "redirect_uri") == Some(redirectUri)
      && Lookup(p, "state") == Some(state)
      && Lookup(p, "response_type") == Some("code")
      && Lookup(p, "scope") == Some("ads_management,ads_read")
      && Lookup(p, "code_challenge") == None
      && Lookup(p, "code_challenge_method") == None
  {
    var p := a.AuthorizeParams(redirectUri, state);
    LookupAt(p, 0, "client_id");
    LookupAt(p, 1, "redirect_uri");
    LookupAt(p, 2, "state");
    LookupAt(p, 3, "response_type");
    LookupAt(p, 4, "scope");
    NoChallenge(a, redirectUri, state);
  }

  lemma NoChallenge(a: Adapter, redirectUri: string, state: string)
    ensures Lookup(a.AuthorizeParams(redirectUri, state), "code_challenge") == None
    ensures Lookup(a.AuthorizeParams(redirectUri, state), "code_challenge_method") == None
  {
  }

  /** An `fb_exchange_token` grant sends that grant type, the app's credentials and the given token. */
  lemma FbExchangeParamsCarry(a: Adapter, token: string)
    ensures var p := a.FbExchangeParams(token);
      Lookup(p, "grant_type") == Some("fb_exchange_token")
      && Lookup(p, "client_id") == Some(a.appId)
      && Lookup(p, "client_secret") == Some(a.appSecret)
      && Lookup(p, "fb_exchange_token") == Some(token)
  {
    var p := a.FbExchangeParams(token);
    LookupAt(p, 0, "grant_type");
    LookupAt(p, 1, "client_id");
    LookupAt(p, 2, "client_secret");
    LookupAt(p, 3, "fb_exchange_token");
  }

  /** The second hop trades exactly the first answer's `access_token`; a refresh trades the given token. */
  lemma FbExchangeUrls(a: Adapter, first: JsonObject, refreshToken: string)
    ensures Endpoint(a.LongLivedUrl(first)) == TokenEndpoint
    ensures ParseQuery(QueryOf(a.LongLivedUrl(first))) == Some(a.FbExchangeParams(Interpolate(Field(first, "access_token"))))
    ensures Endpoint(a.RefreshUrl(refreshToken)) == TokenEndpoint
    ensures ParseQuery(QueryOf(a.RefreshUrl(refreshToken))) == Some(a.FbExchangeParams(refreshToken))
  {
    QueryUrl(TokenEndpoint, a.FbExchangeParams(Interpolate(Field(first, "access_token"))));
    QueryUrl(TokenEndpoint, a.FbExchangeParams(refreshToken));
  }

  /**
   * The exchange succeeds iff both hops do. Its result has only the keys
   * access_token, expires_in and token_type; the token is the long-lived one
   * and the short-lived token is never passed on.
   */
  lemma ExchangeResultShape(first: HttpResponse, second: HttpResponse)
    ensures ExchangeResult(first, second).Ok? <==> first.ok && second.ok
    ensures !first.ok ==>
      ExchangeResult(first, second) == Err(ApiError(ErrorText(GraphErrorMessage(first.body), "Failed to exchange code for tokens")))
    ensures first.ok && !second.ok ==>
      ExchangeResult(first, second) == Err(ApiError(ErrorText(GraphErrorMessage(second.body), "Failed to get long-lived token")))
    ensures ExchangeResult(first, second).Ok? ==>
      var r := ExchangeResult(first, second).value;
      (forall k :: k in r ==> k == "access_token" || k == "expires_in" || k == "token_type")
      && r["token_type"] == JStr("bearer")
      && ("access_token" in r <==> "access_token" in second.body)
      && ("access_token" in r ==> r["access_token"] == second.body["access_token"])
      && ("expires_in" in r <==> "expires_in" in second.body)
      && ("expires_in" in r ==> r["expires_in"] == second.body["expires_in"])
  {
  }

  /** The filter keeps exactly the conversion actions, in order. */
  lemma {:induction false} ConversionActionsAppend(xs: seq<Action>, ys: seq<Action>)
    ensures ConversionActions(xs + ys) == ConversionActions(xs) + ConversionActions(ys)
  {
    if xs == [] {
      assert xs + ys == ys;
    } else {
      assert (xs + ys)[1..] == xs[1..] + ys;
      ConversionActionsAppend(xs[1..], ys);
    }
  }

  lemma {:induction false} SumValuesAppend(xs: seq<Action>, ys: seq<Action>)
    ensures SumValues(xs + ys) == SumValues(xs) + SumValues(ys)
  {
    if xs == [] {
      assert xs + ys == ys;
    } else {
      assert (xs + ys)[1..] == xs[1..] + ys;
      SumValuesAppend(xs[1..], ys);
    }
  }

  /** A missing or non-array argument counts 0. The count is additive over concatenation. */
  lemma ExtractConversionsAdditive(xs: seq<Action>, ys: seq<Action>)
    ensures ExtractConversions(None) == 0
    ensures ExtractConversions(Some(xs + ys)) == ExtractConversions(Some(xs)) + ExtractConversions(Some(ys))
  {
    ConversionActionsAppend(xs, ys);
    SumValuesAppend(ConversionActions(xs), ConversionActions(ys));
  }

  /** A single action counts its value (0 if missing) when it is a purchase or offsite conversion, and nothing otherwise. */
  lemma ExtractConversionsSingle(a: Action)
    ensures ExtractConversions(Some([a])) == Contribution(a)
  {
    assert [a][1..] == [];
    assert ConversionActions([a]) == if IsConversion(a) then [a] else [];
    assert SumValues([a]) == a.value.GetOr(0);
  }

  /** Adding an action of any other type leaves the count unchanged. */
  lemma ExtractConversionsIgnoresOthers(xs: seq<Action>, a: Action)
    requires !IsConversion(a)
    ensures ExtractConversions(Some(xs + [a])) == ExtractConversions(Some(xs))
  {
    ExtractConversionsAdditive(xs, [a]);
    ExtractConversionsSingle(a);
  }
}
