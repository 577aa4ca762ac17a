/**
 * The platform endpoints of server/api/platforms.ts: the authorize URL
 * `/connect/:platform` writes by hand for each platform, and the
 * `/callback/:platform` handler that turns the token endpoint's answer into
 * a connection record, saves it, and redirects.
 *
 * The environment is a string map; the token exchange itself is a network
 * call, so the callback receives the exchange's HTTP response as an input.
 * `now` is `Date.now()` in milliseconds.
 */
module PlatformRoutes {
  import opened Wrappers
  import opened Json
  import opened Schema
  import opened UrlEncoding
  import opened OAuth
  import opened Connections
  import opened Storage
  import opened MetricsRoutes
  import Base64
  import Pkce

  // ------------------------------------------------------------ configuration

  /** `process.env[name] || fallback` */
  function EnvOr(env: map<string, string>, name: string, fallback: string): (r: string)
    ensures name in env && env[name] != "" ==> r == env[name]
    ensures !(name in env && env[name] != "") ==> r == fallback
  {
    if name in env && env[name] != "" then env[name] else fallback
  }

  /** The client ids and the redirect base the authorize URLs are written with. */
  datatype Config = Config(googleClientId: string, facebookClientId: string, tiktokClientId: string, redirectBase: string)

  const DefaultRedirectBase: string := "http://localhost:5000"

  function ConfigOf(env: map<string, string>): Config {
    Config(
      EnvOr(env, "GOOGLE_ADS_CLIENT_ID", ""),
      EnvOr(env, "FACEBOOK_ADS_CLIENT_ID", ""),
      EnvOr(env, "TIKTOK_ADS_CLIENT_ID", ""),
      EnvOr(env, "REDIRECT_URI_BASE", DefaultRedirectBase))
  }

  /** `${REDIRECT_URI_BASE}/api/platforms/callback/${platform}` */
  function RedirectUri(base: string, platform: string): string {
    base + "/api/platforms/callback/" + platform
  }

  // ------------------------------------------------------------ authorize URLs

  /** A URL written as a template `endpoint?name=value&...`, each value inserted as it is. */
  function Template(endpoint: string, pairs: seq<Param>): string {
    endpoint + "?" + PairsText(pairs)
  }

  /** `${codeChallenge}`: an absent query parameter prints as "undefined". */
  function Shown(s: Option<string>): string {
    if s.Some? then s.value else "undefined"
  }

  const GoogleAuthorize: string := "https://accounts.google.com/o/oauth2/auth"
  const FacebookDialog: string := "https://www.facebook.com/v14.0/dialog/oauth"
  const TikTokAuthorize: string := "https://ads.tiktok.com/marketing_api/auth"
  const AdwordsScope: string := "https://www.googleapis.com" + "/auth/adwords"

  /** The google_ads template: the PKCE pair is written whether or not a challenge came with the request. */
  function GooglePairs(clientId: string, encodedRedirect: string, codeChallenge: string): seq<Param> {
    [("client_id", clientId), ("redirect_uri", encodedRedirect), ("response_type", "code"),
     ("scope", AdwordsScope), ("access_type", "offline"), ("prompt", "consent"),
     ("code_challenge", codeChallenge), ("code_challenge_method", "S256")]
  }

  /** The facebook_ads template (Graph API v14.0): the challenge travels as `state`. */
  function FacebookPairs(clientId: string, encodedRedirect: string, codeChallenge: string): seq<Param> {
    [("client_id", clientId), ("redirect_uri", encodedRedirect), ("scope", "ads_management,ads_read"),
     ("response_type", "code"), ("state", codeChallenge)]
  }

  /** The tiktok_ads template: `app_id` for the client, the challenge as `state`. */
  function TikTokPairs(appId: string, encodedRedirect: string, codeChallenge: string): seq<Param> {
    [("app_id", appId), ("redirect_uri", encodedRedirect), ("state", codeChallenge)]
  }

  /** `GET /api/platforms/connect/:platform`: the `authUrl`, or 400 "Invalid platform". */
  function ConnectRoute(cfg: Config, platform: string, codeChallenge: Option<string>): (r: Result<string, HttpError>)
    ensures r.Err? <==> platform !in ValidPlatforms
    ensures r.Err? ==> r.error == HttpError(400, "Invalid platform")
  {
    var encoded := EncodeUriComponent(RedirectUri(cfg.redirectBase, platform));
    var cc := Shown(codeChallenge);
    if platform == GoogleAdsId then Ok(Template(GoogleAuthorize, GooglePairs(cfg.googleClientId, encoded, cc)))
    else if platform == FacebookAdsId then Ok(Template(FacebookDialog, FacebookPairs(cfg.facebookClientId, encoded, cc)))
    else if platform == TikTokAdsId then Ok(Template(TikTokAuthorize, TikTokPairs(cfg.tiktokClientId, encoded, cc)))
    else Err(HttpError(400, "Invalid platform"))
  }

  // ------------------------------------------------------------ reading the URLs back

  /** Every name and value of `pairs` reads back as itself from a query. */
  predicate RawPairs(pairs: seq<Param>) {
    forall i :: 0 <= i < |pairs| ==> RawSafe(pairs[i].0) && RawSafe(pairs[i].1)
  }

  lemma RawSafeAppend(a: string, b: string)
    requires RawSafe(a) && RawSafe(b)
    ensures RawSafe(a + b)
  {
    forall i | 0 <= i < |a + b|
      ensures (a + b)[i] != '&' && (a + b)[i] != '=' && (a + b)[i] != '%' && (a + b)[i] != '+' && (a + b)[i] != '?'
    {
      if i < |a| {
        assert (a + b)[i] == a[i];
      } else {
        assert (a + b)[i] == b[i - |a|];
      }
    }
  }

  /**
   * A hand-written query whose only encoded value is the percent-encoded
   * redirect URI parses to the same pairs with the redirect URI decoded.
   */
  lemma {:induction false} TemplateParses(endpoint: string, before: seq<Param>, redirect: string, after: seq<Param>)
    requires '?' !in endpoint
    requires RawPairs(before) && RawPairs(after)
    ensures var url := Template(endpoint, before + [("redirect_uri", EncodeUriComponent(redirect))] + after);
      Endpoint(url) == endpoint
      && ParseQuery(QueryOf(url)) == Some(before + [("redirect_uri", redirect)] + after)
  {
    var enc := before + [("redirect_uri", EncodeUriComponent(redirect))] + after;
    var dec := before + [("redirect_uri", redirect)] + after;
    forall i | 0 <= i < |enc|
      ensures EncodesTo(enc[i].0, dec[i].0) && EncodesTo(enc[i].1, dec[i].1)
    {
      if i < |before| {
        assert enc[i] == before[i] && dec[i] == before[i];
        RawEncodesToItself(before[i].0);
        RawEncodesToItself(before[i].1);
      } else if i == |before| {
        RawEncodesToItself("redirect_uri");
        EncodeEncodesTo(redirect, false);
      } else {
        var j := i - |before| - 1;
        assert enc[i] == after[j] && dec[i] == after[j];
        RawEncodesToItself(after[j].0);
        RawEncodesToItself(after[j].1);
      }
    }
    ParseEncodedPairs(enc, dec);
    UrlParts(endpoint, PairsText(enc));
  }

  lemma AdwordsScopeRaw()
    ensures RawSafe(AdwordsScope)
  {
    RawSafeAppend("https://www.googleapis.com", "/auth/adwords");
  }

  /** The google_ads pairs after the redirect URI. */
  function GoogleAfter(cc: string): seq<Param> {
    [("response_type", "code"), ("scope", AdwordsScope), ("access_type", "offline"), ("prompt", "consent"),
     ("code_challenge", cc), ("code_challenge_method", "S256")]
  }

  lemma GooglePairsSplit(clientId: string, redirect: string, cc: string)
    ensures GooglePairs(clientId, redirect, cc) == [("client_id", clientId)] + [("redirect_uri", redirect)] + GoogleAfter(cc)
  {
  }

  lemma GoogleRaw(clientId: string, cc: string)
    requires RawSafe(clientId) && RawSafe(cc)
    ensures RawPairs([("client_id", clientId)]) && RawPairs(GoogleAfter(cc))
  {
    AdwordsScopeRaw();
    GoogleNamesRaw();
    GoogleValuesRaw();
    var after := GoogleAfter(cc);
    forall i | 0 <= i < |after| ensures RawSafe(after[i].0) && RawSafe(after[i].1) {
      if i == 0 {
      } else if i == 1 {
      } else if i == 2 {
      } else if i == 3 {
      } else if i == 4 {
      } else {
      }
    }
  }

  lemma GoogleNamesRaw()
    ensures RawSafe("client_id") && RawSafe("response_type") && RawSafe("scope") && RawSafe("access_type")
    ensures RawSafe("prompt") && RawSafe("code_challenge") && RawSafe("code_challenge_method")
  {
  }

  lemma GoogleValuesRaw()
    ensures RawSafe("code") && RawSafe("offline") && RawSafe("consent") && RawSafe("S256")
  {
  }

  /**
   * The google_ads URL reads back, for raw-safe client id and challenge, as
   * the authorize endpoint with the client id, the (decoded) callback URI of
   * the platform, the adwords scope, offline access, forced consent, and
   * `code_challenge` with `code_challenge_method=S256`, the challenge being
   * "undefined" when none was sent.
   */
  lemma GoogleConnectUrl(cfg: Config, codeChallenge: Option<string>)
    requires RawSafe(cfg.googleClientId) && RawSafe(Shown(codeChallenge))
    ensures var r := ConnectRoute(cfg, GoogleAdsId, codeChallenge);
      r.Ok? && Endpoint(r.value) == GoogleAuthorize
      && ParseQuery(QueryOf(r.value)) == Some(GooglePairs(cfg.googleClientId, RedirectUri(cfg.redirectBase, GoogleAdsId), Shown(codeChallenge)))
  {
    var cc := Shown(codeChallenge);
    var redirect := RedirectUri(cfg.redirectBase, GoogleAdsId);
    var before := [("client_id", cfg.googleClientId)];
    var after := GoogleAfter(cc);
    GoogleRaw(cfg.googleClientId, cc);
    TemplateParses(GoogleAuthorize, before, redirect, after);
    GooglePairsSplit(cfg.googleClientId, EncodeUriComponent(redirect), cc);
    GooglePairsSplit(cfg.googleClientId, redirect, cc);
  }

  lemma FacebookRaw(clientId: string, cc: string)
    requires RawSafe(clientId) && RawSafe(cc)
    ensures RawPairs([("client_id", clientId)])
    ensures RawPairs([("scope", "ads_management,ads_read"), ("response_type", "code"), ("state", cc)])
  {
    RawSafeAppend("ads_management", ",ads_read");
    FacebookLiteralsRaw();
    var after := [("scope", "ads_management,ads_read"), ("response_type", "code"), ("state", cc)];
    forall i | 0 <= i < |after| ensures RawSafe(after[i].0) && RawSafe(after[i].1) {
      if i == 0 {
      } else if i == 1 {
      } else {
      }
    }
  }

  lemma FacebookLiteralsRaw()
    ensures RawSafe("client_id") && RawSafe("scope") && RawSafe("response_type") && RawSafe("code") && RawSafe("state")
  {
  }

  /**
   * The facebook_ads URL reads back as the v14.0 dialog with the client id,
   * the callback URI, the ads scopes, `response_type=code` and the challenge
   * as `state`; it has no `code_challenge`.
   */
  lemma FacebookConnectUrl(cfg: Config, codeChallenge: Option<string>)
    requires RawSafe(cfg.facebookClientId) && RawSafe(Shown(codeChallenge))
    ensures var r := ConnectRoute(cfg, FacebookAdsId, codeChallenge);
      r.Ok? && Endpoint(r.value) == FacebookDialog
      && ParseQuery(QueryOf(r.value)) == Some(FacebookPairs(cfg.facebookClientId, RedirectUri(cfg.redirectBase, FacebookAdsId), Shown(codeChallenge)))
      && Lookup(FacebookPairs(cfg.facebookClientId, RedirectUri(cfg.redirectBase, FacebookAdsId), Shown(codeChallenge)), "code_challenge") == None
  {
    var cc := Shown(codeChallenge);
    var redirect := RedirectUri(cfg.redirectBase, FacebookAdsId);
    var before := [("client_id", cfg.facebookClientId)];
    var after := [("scope", "ads_management,ads_read"), ("response_type", "code"), ("state", cc)];
    FacebookRaw(cfg.facebookClientId, cc);
    FacebookNoChallenge(cfg.facebookClientId, redirect, cc);
    TemplateParses(FacebookDialog, before, redirect, after);
    FacebookPairsSplit(cfg.facebookClientId, EncodeUriComponent(redirect), cc);
    FacebookPairsSplit(cfg.facebookClientId, redirect, cc);
  }

  lemma FacebookPairsSplit(clientId: string, redirect: string, cc: string)
    ensures FacebookPairs(clientId, redirect, cc)
      == [("client_id", clientId)] + [("redirect_uri", redirect)] + [("scope", "ads_management,ads_read"), ("response_type", "code"), ("state", cc)]
  {
  }

  lemma TikTokPairsSplit(appId: string, redirect: string, cc: string)
    ensures TikTokPairs(appId, redirect, cc) == [("app_id", appId)] + [("redirect_uri", redirect)] + [("state", cc)]
  {
  }

  lemma FacebookNoChallenge(clientId: string, redirect: string, cc: string)
    ensures Lookup(FacebookPairs(clientId, redirect, cc), "code_challenge") == None
  {
  }

  /**
   * The tiktok_ads URL reads back as the TikTok authorize page with `app_id`,
   * the callback URI and the challenge as `state`, and nothing else.
   */
  lemma TikTokConnectUrl(cfg: Config, codeChallenge: Option<string>)
    requires RawSafe(cfg.tiktokClientId) && RawSafe(Shown(codeChallenge))
    ensures var r := ConnectRoute(cfg, TikTokAdsId, codeChallenge);
      r.Ok? && Endpoint(r.value) == TikTokAuthorize
      && ParseQuery(QueryOf(r.value)) == Some(TikTokPairs(cfg.tiktokClientId, RedirectUri(cfg.redirectBase, TikTokAdsId), Shown(codeChallenge)))
  {
    var cc := Shown(codeChallenge);
    var redirect := RedirectUri(cfg.redirectBase, TikTokAdsId);
    var before := [("app_id", cfg.tiktokClientId)];
    var after := [("state", cc)];
    TemplateParses(TikTokAuthorize, before, redirect, after);
    TikTokPairsSplit(cfg.tiktokClientId, EncodeUriComponent(redirect), cc);
    TikTokPairsSplit(cfg.tiktokClientId, redirect, cc);
  }

  /** A challenge the client computes (base64url, no padding) is raw-safe, so the three lemmas above apply to it. */
  lemma ChallengeRawSafe(verifier: string, sha256: seq<byte> -> seq<byte>)
    ensures RawSafe(Pkce.CodeChallenge(verifier, sha256))
  {
    var r := Pkce.CodeChallenge(verifier, sha256);
    Base64.Base64UrlEncodeShape(sha256(Utf8(verifier)));
    forall i | 0 <= i < |r|
      ensures r[i] != '&' && r[i] != '=' && r[i] != '%' && r[i] != '+' && r[i] != '?' && r[i] != '#'
    {
      assert Base64.UrlValue(r[i]).Some?;
    }
  }

  // ------------------------------------------------------------ the callback

  const SuccessLocation: string := "/?connection_success=true"
  const ErrorLocation: string := "/?connection_error=true"

  /** The exchange step: an unknown platform throws before any request; a response that is not ok throws; else its body. */
  function Exchanged(platform: string, resp: HttpResponse): (r: Result<JsonObject, string>)
    ensures r.Ok? <==> platform in ValidPlatforms && resp.ok
    ensures r.Ok? ==> r.value == resp.body
  {
    if platform !in ValidPlatforms then Err("Invalid platform")
    else if !resp.ok then Err("token exchange failed")
    else Ok(resp.body)
  }

  /** A nullable text field after `insertPlatformConnectionSchema.parse`: absent or null is null, a string is kept, anything else is rejected. */
  function NullableText(v: Option<Json>): (r: Result<Option<string>, string>)
    ensures r.Err? <==> v.Some? && !v.value.JNull? && !v.value.JStr?
    ensures r.Ok? && r.value.Some? ==> v == Some(JStr(r.value.value))
  {
    match v
    case None => Ok(None)
    case Some(JNull) => Ok(None)
    case Some(JStr(s)) => Ok(Some(s))
    case Some(_) => Err("expected string")
  }

  /** `field || null`, then parsed as nullable text: a falsy field is null, a truthy string is kept, any other truthy value is rejected. */
  function TextOrNull(o: JsonObject, k: string): (r: Result<Option<string>, string>)
    ensures !FieldTruthy(o, k) ==> r == Ok(None)
    ensures FieldTruthy(o, k) ==> (r.Ok? <==> o[k].JStr?) && (r.Ok? ==> r.value == Some(o[k].s))
  {
    if FieldTruthy(o, k) then NullableText(Some(o[k])) else Ok(None)
  }

  /**
   * `Number(v)` as `*` applies it, `None` standing for NaN: null is 0, a
   * boolean 0 or 1, an array the number its text (`join(",")`) reads as, so
   * an empty array is 0 and a one-element array is its element's number,
   * and an object is NaN. Strings are taken as NaN (see the README).
   */
  function ToNumber(j: Json): Option<int>
    decreases j
  {
    match j
    case JNull => Some(0)
    case JBool(b) => Some(if b then 1 else 0)
    case JNum(n) => Some(n)
    case JStr(_) => None
    case JArr(xs) =>
      if |xs| == 0 then Some(0)
      else if |xs| == 1 then (if xs[0].JBool? then None else ToNumber(xs[0]))
      else None
    case JObj(_) => None
  }

  /** The largest distance from the epoch, in milliseconds, of a valid `Date`. */
  const MaxTime: int := 8_640_000_000_000_000

  /** `new Date(t)` is valid, and so accepted by the schema's date field, iff `t` is a number within `MaxTime` of the epoch. */
  predicate ValidTime(t: int) {
    -MaxTime <= t <= MaxTime
  }

  /** `expires_in ? new Date(now + expires_in * 1000) : null`; NaN or an out-of-range time is an invalid date, which the schema rejects. */
  function ExpiryOf(o: JsonObject, now: int): (r: Result<Option<int>, string>)
  {
    if !FieldTruthy(o, "expires_in") then Ok(None)
    else match ToNumber(o["expires_in"])
      case None => Err("invalid date")
      case Some(n) => if ValidTime(now + n * 1000) then Ok(Some(now + n * 1000)) else Err("invalid date")
  }

  /** Truthy non-numbers that the multiplication coerces: `true`, `[3600]`, `[[60]]` and `[]` give dates; `[true]`, `[1, 2]` and an object do not. */
  lemma ExpiryCoerces(now: int)
    requires ValidTime(now) && ValidTime(now + 3_600_000)
    ensures ExpiryOf(map["expires_in" := JBool(true)], now) == Ok(Some(now + 1000))
    ensures ExpiryOf(map["expires_in" := JArr([JNum(3600)])], now) == Ok(Some(now + 3_600_000))
    ensures ExpiryOf(map["expires_in" := JArr([JArr([JNum(60)])])], now) == Ok(Some(now + 60_000))
    ensures ExpiryOf(map["expires_in" := JArr([])], now) == Ok(Some(now))
    ensures ExpiryOf(map["expires_in" := JArr([JBool(true)])], now).Err?
    ensures ExpiryOf(map["expires_in" := JArr([JNum(1), JNum(2)])], now).Err?
    ensures ExpiryOf(map["expires_in" := JObj(map[])], now).Err?
  {
  }

  /** The object literal of the callback, through `insertPlatformConnectionSchema.parse`. */
  function ConnectionRecord(userId: int, platform: string, token: JsonObject, now: int): Result<ConnectionInput, string> {
    match (Field(token, "access_token"), NullableText(Field(token, "refresh_token")), ExpiryOf(token, now),
           TextOrNull(token, "account_id"), TextOrNull(token, "account_name"))
    case (Some(JStr(accessToken)), Ok(refreshToken), Ok(expiresAt), Ok(accountId), Ok(accountName)) =>
      Ok(ConnectionInput(userId, platform, accessToken, refreshToken, expiresAt, accountId, accountName, Some(JObj(token))))
    case _ => Err("invalid connection record")
  }

  /** What the callback would save: the exchange, then the record. */
  function CallbackRecord(userId: int, platform: string, resp: HttpResponse, now: int): Result<ConnectionInput, string> {
    match Exchanged(platform, resp)
    case Err(e) => Err(e)
    case Ok(token) => ConnectionRecord(userId, platform, token, now)
  }

  /**
   * The record of a successful callback: the user and platform of the
   * request, the response's access token, its refresh token when it is a
   * string, an expiry `expires_in` seconds after `now` when `expires_in` is
   * truthy and none otherwise, account fields exactly when truthy, and the
   * whole response as metadata. A record exists exactly for one of the
   * three platforms, an ok response, a string access token, a refresh token
   * that is absent, null or a string, an `expires_in` that is falsy or
   * gives a valid date, and account fields that are falsy or strings.
   */
  lemma CallbackRecordMeaning(userId: int, platform: string, resp: HttpResponse, now: int)
    ensures var r := CallbackRecord(userId, platform, resp, now);
      var b := resp.body;
      (r.Ok? ==>
        platform in ValidPlatforms && resp.ok
        && r.value.userId == userId && r.value.platform == platform
        && "access_token" in b && b["access_token"] == JStr(r.value.accessToken)
        && (r.value.refreshToken.Some? <==> "refresh_token" in b && b["refresh_token"].JStr?)
        && (r.value.refreshToken.Some? ==> b["refresh_token"] == JStr(r.value.refreshToken.value))
        && (FieldTruthy(b, "expires_in") ==>
              ToNumber(b["expires_in"]).Some?
              && ValidTime(now + ToNumber(b["expires_in"]).value * 1000)
              && r.value.expiresAt == Some(now + ToNumber(b["expires_in"]).value * 1000))
        && (!FieldTruthy(b, "expires_in") ==> r.value.expiresAt == None)
        && (r.value.accountId.Some? <==> FieldTruthy(b, "account_id"))
        && (FieldTruthy(b, "account_id") ==> b["account_id"] == JStr(r.value.accountId.value))
        && (r.value.accountName.Some? <==> FieldTruthy(b, "account_name"))
        && (FieldTruthy(b, "account_name") ==> b["account_name"] == JStr(r.value.accountName.value))
        && r.value.metadata == Some(JObj(b)))
      && (r.Ok? <==>
        platform in ValidPlatforms && resp.ok
        && "access_token" in b && b["access_token"].JStr?
        && ("refresh_token" in b ==> b["refresh_token"].JNull? || b["refresh_token"].JStr?)
        && (FieldTruthy(b, "expires_in") ==>
              ToNumber(b["expires_in"]).Some? && ValidTime(now + ToNumber(b["expires_in"]).value * 1000))
        && (FieldTruthy(b, "account_id") ==> b["account_id"].JStr?)
        && (FieldTruthy(b, "account_name") ==> b["account_name"].JStr?))
  {
  }

  /**
   * TikTok's token endpoint answers with a `{code, message, data}` envelope
   * that has no top-level `access_token`, so the callback for tiktok_ads
   * always ends on the error redirect.
   */
  lemma TikTokEnvelopeRejected(userId: int, resp: HttpResponse, now: int)
    requires "access_token" !in resp.body
    ensures CallbackRecord(userId, TikTokAdsId, resp, now).Err?
  {
  }

  /**
   * After a successful callback the user has exactly one connection for the
   * platform: the saved one, carrying the response's token and the whole
   * response as metadata.
   */
  lemma CallbackConnects(conns: seq<PlatformConnection>, nextId: int, userId: int, platform: string, resp: HttpResponse, now: int)
    requires TableInvariant(conns, nextId)
    requires CallbackRecord(userId, platform, resp, now).Ok?
    ensures var input := CallbackRecord(userId, platform, resp, now).value;
      var (after, saved) := Upsert(conns, input, nextId);
      FindConnection(after, userId, platform) == Some(saved)
      && resp.body["access_token"] == JStr(saved.accessToken)
      && saved.metadata == JObj(resp.body)
  {
    var input := CallbackRecord(userId, platform, resp, now).value;
    CallbackRecordMeaning(userId, platform, resp, now);
    SaveThenFind(conns, input, nextId);
  }

  /** `GET /api/platforms/callback/:platform`: save the record and redirect to success, or redirect to the error page leaving storage as it was. */
  method CallbackRoute(st: SupabaseStorage, userId: int, platform: string, resp: HttpResponse, now: int) returns (location: string)
    requires st.Valid()
    modifies st
    ensures st.Valid()
    ensures var r := CallbackRecord(userId, platform, resp, now);
      (r.Ok? ==> location == SuccessLocation && st.connections == Upsert(old(st.connections), r.value, old(st.nextConnectionId)).0)
      && (r.Ok? ==> st.nextConnectionId == NextIdAfter(old(st.connections), r.value, old(st.nextConnectionId)))
      && (r.Err? ==> location == ErrorLocation && st.connections == old(st.connections) && st.nextConnectionId == old(st.nextConnectionId))
    ensures st.metrics == old(st.metrics)
  {
    var record := CallbackRecord(userId, platform, resp, now);
    if record.Err? {
      return ErrorLocation;
    }
    var saved := st.SavePlatformConnection(record.value);
    location := SuccessLocation;
  }

  /** `DELETE /api/platforms/:platform` */
  method DisconnectRoute(st: SupabaseStorage, userId: int, platform: string)
    requires st.Valid()
    modifies st
    ensures st.Valid()
    ensures st.connections == Removed(old(st.connections), userId, platform)
    ensures FindConnection(st.connections, userId, platform) == None
    ensures st.metrics == old(st.metrics) && st.nextConnectionId == old(st.nextConnectionId)
  {
    DeleteThenFind(st.connections, st.nextConnectionId, userId, platform, userId, platform);
    st.DeletePlatformConnection(userId, platform);
  }
}
