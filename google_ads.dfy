/**
 * The Google Ads adapter (client/src/lib/api/adapters/google-ads.ts): the
 * authorization request of section 4.1.1 of RFC 6749 with the PKCE challenge
 * of section 4.3 of RFC 7636, the authorization-code and refresh-token form
 * bodies, and the handling of the token endpoint's answer.
 */
module GoogleAds {
  import opened Wrappers
  import opened Json
  import opened UrlEncoding
  import opened OAuth

  const AuthorizeEndpoint: string := "https://accounts.google.com/o/oauth2/auth"
  const TokenEndpoint: string := "https://oauth2.googleapis.com/token"
  const AdwordsScope: string := "https://www.googleapis.com/auth/adwords"

  /** The parameters every Google authorize URL carries, in the order they are written. */
  function BaseAuthorizeParams(clientId: string, redirectUri: string, state: string): seq<Param> {
    [("client_id", clientId), ("redirect_uri", redirectUri), ("response_type", "code"),
     ("scope", AdwordsScope), ("access_type", "offline"), ("prompt", "consent"), ("state", state)]
  }

  /** The PKCE pair appended when a challenge is given. */
  function ChallengeParams(codeChallenge: string): seq<Param> {
    [("code_challenge", codeChallenge), ("code_challenge_method", "S256")]
  }

  /** The form body of the authorization-code grant, before the optional verifier. */
  function BaseExchangeParams(clientId: string, clientSecret: string, code: string, redirectUri: string): seq<Param> {
    [("code", code), ("client_id", clientId), ("client_secret", clientSecret),
     ("redirect_uri", redirectUri), ("grant_type", "authorization_code")]
  }

  datatype Adapter = Adapter(clientId: string, clientSecret: string)
  {
    function PlatformId(): string {
      GoogleAdsId
    }

    /** The query of the authorize URL: the base parameters, then the PKCE pair iff a non-empty challenge is given. */
    function AuthorizeParams(redirectUri: string, state: string, codeChallenge: Option<string>): seq<Param> {
      BaseAuthorizeParams(clientId, redirectUri, state)
      + (if Present(codeChallenge) then ChallengeParams(codeChallenge.value) else [])
    }

    /** `generateAuthUrl`: the parameter list is built, conditionally extended, then serialized. */
    method GenerateAuthUrl(redirectUri: string, state: string, codeChallenge: Option<string>) returns (url: string)
      ensures url == AuthorizeEndpoint + "?" + Serialize(AuthorizeParams(redirectUri, state, codeChallenge))
    {
      var params := BaseAuthorizeParams(clientId, redirectUri, state);
      if Present(codeChallenge) {
        params := params + [("code_challenge", codeChallenge.value)];
        params := params + [("code_challenge_method", "S256")];
        assert params == BaseAuthorizeParams(clientId, redirectUri, state) + ChallengeParams(codeChallenge.value);
      } else {
        assert params == BaseAuthorizeParams(clientId, redirectUri, state) + [];
      }
      assert params == AuthorizeParams(redirectUri, state, codeChallenge);
      url := AuthorizeEndpoint + "?" + Serialize(params);
    }

    /** The form body `exchangeCodeForTokens` posts: the base grant, then `code_verifier` iff one is given. */
    function ExchangeParams(code: string, redirectUri: string, codeVerifier: Option<string>): seq<Param> {
      BaseExchangeParams(clientId, clientSecret, code, redirectUri)
      + (if Present(codeVerifier) then [("code_verifier", codeVerifier.value)] else [])
    }

    method BuildExchangeParams(code: string, redirectUri: string, codeVerifier: Option<string>) returns (params: seq<Param>)
      ensures params == ExchangeParams(code, redirectUri, codeVerifier)
    {
      params := BaseExchangeParams(clientId, clientSecret, code, redirectUri);
      if Present(codeVerifier) {
        params := params + [("code_verifier", codeVerifier.value)];
      } else {
        assert params == BaseExchangeParams(clientId, clientSecret, code, redirectUri) + [];
      }
    }

    /** The form body `refreshAccessToken` posts (section 6 of RFC 6749). */
    function RefreshParams(refreshToken: string): seq<Param> {
      [("refresh_token", refreshToken), ("client_id", clientId), ("client_secret", clientSecret),
       ("grant_type", "refresh_token")]
    }
  }

  /** The token endpoint's answer to the code exchange: the body when ok, else its `error_description` or a fixed message. */
  function ExchangeResult(resp: HttpResponse): Result<JsonObject, Failure> {
    Decode(resp, Field(resp.body, "error_description"), "Failed to exchange code for tokens")
  }

  /** The token endpoint's answer to a refresh. */
  function RefreshResult(resp: HttpResponse): Result<JsonObject, Failure> {
    Decode(resp, Field(resp.body, "error_description"), "Failed to refresh access token")
  }

  // ---------------------------------------------------------------- properties

  lemma PlatformIdIsGoogle(a: Adapter)
    ensures a.PlatformId() == "google_ads"
  {
  }

  /** The authorize URL goes to Google's endpoint and its query parses back to the parameter list. */
  lemma AuthorizeUrlParses(a: Adapter, redirectUri: string, state: string, codeChallenge: Option<string>)
    ensures var url := AuthorizeEndpoint + "?" + Serialize(a.AuthorizeParams(redirectUri, state, codeChallenge));
      Endpoint(url) == AuthorizeEndpoint
      && ParseQuery(QueryOf(url)) == Some(a.AuthorizeParams(redirectUri, state, codeChallenge))
  {
    QueryUrl(AuthorizeEndpoint, a.AuthorizeParams(redirectUri, state, codeChallenge));
  }

  /**
   * Every fixed parameter of the authorize request has its value, and
   * `code_challenge` and `code_challenge_method=S256` are present iff a
   * non-empty challenge was given.
   */
  lemma AuthorizeParamsCarry(a: Adapter, redirectUri: string, state: string, codeChallenge: Option<string>)
    ensures var p := a.AuthorizeParams(redirectUri, state, codeChallenge);
      Lookup(p, "client_id") == Some(a.clientId)
      && Lookup(p, "redirect_uri") == Some(redirectUri)
      && Lookup(p, "response_type") == Some("code")
      && Lookup(p, "scope") == Some(AdwordsScope)
      && Lookup(p, "access_type") == Some("offline")
      && Lookup(p, "prompt") == Some("consent")
      && Lookup(p, "state") == Some(state)
    ensures var p := a.AuthorizeParams(redirectUri, state, codeChallenge);
      Lookup(p, "code_challenge") == (if Present(codeChallenge) then Some(codeChallenge.value) else None)
      && Lookup(p, "code_challenge_method") == (if Present(codeChallenge) then Some("S256") else None)
  {
    var base := BaseAuthorizeParams(a.clientId, redirectUri, state);
    var extra := if Present(codeChallenge) then ChallengeParams(codeChallenge.value) else [];
    BaseAuthorizeLookups(a.clientId, redirectUri, state);
    BaseAuthorizeLookupsTail(a.clientId, redirectUri, state);
    BaseAuthorizeNoChallenge(a.clientId, redirectUri, state);
    LookupAppend(base, extra, "client_id");
    LookupAppend(base, extra, "redirect_uri");
    LookupAppend(base, extra, "response_type");
    LookupAppend(base, extra, "scope");
    LookupAppend(base, extra, "access_type");
    LookupAppend(base, extra, "prompt");
    LookupAppend(base, extra, "state");
    LookupAppend(base, extra, "code_challenge");
    LookupAppend(base, extra, "code_challenge_method");
    ExtraLookups(codeChallenge);
  }

  /** The optional PKCE pair, looked up by name. */
  lemma ExtraLookups(codeChallenge: Option<string>)
    ensures var extra := if Present(codeChallenge) then ChallengeParams(codeChallenge.value) else [];
      Lookup(extra, "code_challenge") == (if Present(codeChallenge) then Some(codeChallenge.value) else None)
      && Lookup(extra, "code_challenge_method") == (if Present(codeChallenge) then Some("S256") else None)
  {
    if Present(codeChallenge) {
      var extra := ChallengeParams(codeChallenge.value);
      LookupAt(extra, 0, "code_challenge");
      LookupAt(extra, 1, "code_challenge_method");
    }
  }

  /** The first four base authorize parameters, looked up by name. */
  lemma BaseAuthorizeLookups(clientId: string, redirectUri: string, state: string)
    ensures var p := BaseAuthorizeParams(clientId, redirectUri, state);
      Lookup(p, "client_id") == Some(clientId)
      && Lookup(p, "redirect_uri") == Some(redirectUri)
      && Lookup(p, "response_type") == Some("code")
      && Lookup(p, "scope") == Some(AdwordsScope)
  {
    var p := BaseAuthorizeParams(clientId, redirectUri, state);
    LookupAt(p, 0, "client_id");
    LookupAt(p, 1, "redirect_uri");
    LookupAt(p, 2, "response_type");
    LookupAt(p, 3, "scope");
  }

  /** The last three base authorize parameters, looked up by name. */
  lemma BaseAuthorizeLookupsTail(clientId: string, redirectUri: string, state: string)
    ensures var p := BaseAuthorizeParams(clientId, redirectUri, state);
      Lookup(p, "access_type") == Some("offline")
      && Lookup(p, "prompt") == Some("consent")
      && Lookup(p, "state") == Some(state)
  {
    var p := BaseAuthorizeParams(clientId, redirectUri, state);
    LookupAt(p, 4, "access_type");
    LookupAt(p, 5, "prompt");
    LookupAt(p, 6, "state");
  }

  /** The PKCE pair is not among the base authorize parameters. */
  lemma BaseAuthorizeNoChallenge(clientId: string, redirectUri: string, state: string)
    ensures Lookup(BaseAuthorizeParams(clientId, redirectUri, state), "code_challenge") == None
    ensures Lookup(BaseAuthorizeParams(clientId, redirectUri, state), "code_challenge_method") == None
  {
  }

  /** The code exchange sends the authorization_code grant, and `code_verifier` iff one was given (section 4.5 of RFC 7636). */
  lemma ExchangeParamsCarry(a: Adapter, code: string, redirectUri: string, codeVerifier: Option<string>)
    ensures var p := a.ExchangeParams(code, redirectUri, codeVerifier);
      Lookup(p, "code") == Some(code)
      && Lookup(p, "client_id") == Some(a.clientId)
      && Lookup(p, "client_secret") == Some(a.clientSecret)
      && Lookup(p, "redirect_uri") == Some(redirectUri)
      && Lookup(p, "grant_type") == Some("authorization_code")
      && Lookup(p, "code_verifier") == (if Present(codeVerifier) then Some(codeVerifier.value) else None)
  {
    var p := a.ExchangeParams(code, redirectUri, codeVerifier);
    LookupAt(p, 0, "code");
    LookupAt(p, 1, "client_id");
    LookupAt(p, 2, "client_secret");
    LookupAt(p, 3, "redirect_uri");
    LookupAt(p, 4, "grant_type");
    if Present(codeVerifier) {
      LookupAt(p, 5, "code_verifier");
    }
  }

  /** A refresh sends the refresh_token grant with the given token. */
  lemma RefreshParamsCarry(a: Adapter, refreshToken: string)
    ensures var p := a.RefreshParams(refreshToken);
      Lookup(p, "grant_type") == Some("refresh_token")
      && Lookup(p, "refresh_token") == Some(refreshToken)
      && Lookup(p, "client_id") == Some(a.clientId)
      && Lookup(p, "client_secret") == Some(a.clientSecret)
  {
    var p := a.RefreshParams(refreshToken);
    LookupAt(p, 0, "refresh_token");
    LookupAt(p, 1, "client_id");
    LookupAt(p, 2, "client_secret");
    LookupAt(p, 3, "grant_type");
  }

  /** A failed exchange never yields tokens; its message is the truthy `error_description`, else the fixed text. */
  lemma ExchangeResultCases(resp: HttpResponse)
    ensures ExchangeResult(resp).Ok? <==> resp.ok
    ensures resp.ok ==> ExchangeResult(resp) == Ok(resp.body)
    ensures !resp.ok && FieldTruthy(resp.body, "error_description") ==>
      ExchangeResult(resp) == Err(ApiError(JsString(resp.body["error_description"])))
    ensures !resp.ok && !FieldTruthy(resp.body, "error_description") ==>
      ExchangeResult(resp) == Err(ApiError("Failed to exchange code for tokens"))
  {
  }
}
