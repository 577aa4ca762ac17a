# Ad-platform dashboard core, in Dafny

A model of the server and client core of a marketing dashboard that connects a
user's Google Ads, Meta (Facebook) Ads and TikTok Ads accounts over OAuth 2.0
and reports on their campaign metrics:

- the connection store and the analytics reads of `SupabaseStorage`
  (server/storage.ts), held as two in-memory tables inside a class
  (`Storage.SupabaseStorage`): the upsert of a platform connection with its
  `??` fallbacks, deletion, the date-window query of metric rows, the
  dashboard summary, per-platform performance, spend distribution, top
  campaigns and the day-by-day timeseries;
- the metric endpoints of server/api/metrics.ts: date defaults, the previous
  comparison window, the percentage-change formula, `parseInt` of the
  `limit` parameter and the validation of metric and platform names;
- the platform endpoints of server/api/platforms.ts: the authorize URL per
  platform, and the OAuth callback that builds a connection record and saves
  it or redirects to the error page;
- the PKCE helpers of client/src/lib/auth.ts (verifier from random bytes,
  unpadded base64url, S256 challenge, the verifier's storage key);
- the three client adapters: authorize URLs, token-exchange and refresh
  parameters, and the decoding of token responses (including TikTok's
  `{code, message, data}` envelope and Meta's `extractConversions`).

Modelling assumptions:

- Money and ratios are `real` (no IEEE rounding). Dates are whole day numbers,
  so `toISOString().split('T')[0]` bucketing and time zones disappear.
- JSON numbers are integers (`Json.JNum`); JavaScript truthiness, `||` and `??`
  are written out where the code uses them.
- `fetch`, `crypto.getRandomValues`, `Math.random` and SHA-256 are inputs: an
  `HttpResponse` value, a byte sequence, a function `random: nat -> real`
  whose i-th value is the i-th draw, and a function parameter `sha256`.
- A Supabase table is a sequence in insertion order; the queries have no
  `ORDER BY`, so the model returns rows in table order. Serial ids come from a
  counter field.
- `URLSearchParams` serialization, `encodeURIComponent` and UTF-8 are modelled
  character by character, with a reference parser as their partner.

Behaviour of the code worth noting, which the model follows:

- The server's Facebook authorize URL uses the v14.0 dialog, but the client
  adapter uses v17.0.
- The google_ads authorize URL always carries `code_challenge` and
  `code_challenge_method=S256`. When no challenge was sent, the challenge
  prints as "undefined".
- `getMetricsSummary` puts the constants 12.4, 8.3, 23.5 and -4.2 in its
  change fields. The summary route overwrites them with changes it computes.
- A top campaign's ROAS is fixed by its group's first row. Campaign keys
  `id:platform` can collide ("a:b" on "c" and "a" on "b:c"). The ROAS sort is
  stable.
- `slice(0, limit)` with a negative limit counts from the end of the list.
  A limit that does not parse (`NaN`) gives an empty list.
- The timeseries sums each row's own `ctr` and `roas`. A row whose platform
  is literally "total" is counted twice in the day's total.
- `getPlatformConnection` uses `.single()`, so a lookup finds a row only when
  exactly one row matches. Under the one-row-per-(user, platform) invariant,
  which every saving and deleting operation keeps when requests run one at a
  time, that is the matching row.
- At the callback, the TikTok token response is the raw `{code, message,
  data}` envelope, which has no top-level `access_token`. Schema validation
  therefore rejects it, and a TikTok connection is never saved.

## Model

| member | source | states |
|---|---|---|
| Schema.TotalAppend | server/storage.ts:355-358 | a column total (null as 0) splits over any cut of the rows |
| Schema.RatioInverse | server/storage.ts:361-363 | a guarded quotient times a positive divisor gives back the dividend; a non-positive divisor gives 0 |
| Schema.OfPlatform | server/storage.ts:411 | the platform filter keeps exactly the rows of that platform, never more rows than given |
| Schema.OfPlatformAppend | server/storage.ts:411 | filtering a table extended by one row extends the result by that row exactly when it is of the platform |
| Summaries.MetricsIn | server/storage.ts:287-296 | the selected rows are exactly the user's rows with start <= date <= end, of the platform when a non-empty one is given |
| Summaries.MetricsInAppend | server/storage.ts:287-296 | rows saved later are selected after earlier ones and exactly when they fall in the window |
| Summaries.MetricsInPlatform | server/storage.ts:294-296 | a platform query selects exactly that platform's share of the unfiltered query, in order |
| Summaries.SummaryMeaning | server/storage.ts:337-389 | no rows gives twelve zeros; otherwise the four totals are the sums over the rows with null as 0, and the changes are the constants 12.4, 8.3, 23.5, -4.2 |
| Summaries.SummaryAverages | server/storage.ts:360-367 | CTR x impressions = clicks, CPC x clicks = spend, cost per conversion x conversions = spend, ROAS x spend = conversions x 100, each 0 when its divisor is not positive |
| Summaries.SummaryTotalsAdd | server/storage.ts:355-358 | the four totals of a summary split over any cut of its rows |
| Connections.OfUser | server/storage.ts:108-131 | the user's connections are exactly the rows with that user id |
| Connections.FindConnection | server/storage.ts:134-142 | `.single()` finds a row iff exactly one row matches (user, platform), and the row found matches |
| Connections.MetadataOr | server/storage.ts:173 | `metadata ?? stored`: a present, non-null incoming value wins; otherwise the stored one is kept |
| Connections.Removed | server/storage.ts:236-241 | delete keeps exactly the rows not of (user, platform) and removes as many rows as matched |
| Connections.UpsertKeepsInvariant | server/storage.ts:159-213 | saving, one request at a time, keeps one row per (user, platform) and distinct serial ids below the counter |
| Connections.SaveThenFind | server/storage.ts:163-176 | after a save the pair finds the saved row: new access token, `??` fallback to the stored refresh token, expiry, account id/name and metadata, the old id on update and the next id on insert |
| Connections.SaveLeavesOthers | server/storage.ts:165-176 | rows of other (user, platform) pairs are unchanged; the table grows by one row exactly when no row existed |
| Connections.DeleteThenFind | server/storage.ts:236-241 | after delete the pair finds nothing and any other pair finds what it found before; the invariant holds |
| Connections.RemovedInvariant | server/storage.ts:236-241 | deleting keeps one row per (user, platform) |
| Connections.FindUnique | server/storage.ts:134-142 | under the invariant, the lookup of a row's own (user, platform) finds that row |
| Connections.NoneMeansAbsent | server/storage.ts:142 | under the invariant, a lookup that finds nothing means no row matches |
| Storage.SupabaseStorage.constructor | server/storage.ts:18 | a new store has empty tables and satisfies the invariant |
| Storage.SupabaseStorage.SavePlatformConnection | server/storage.ts:159-234 | the new table and the returned row are the upsert of the old table; the invariant is kept (the method runs as one atomic step); metric rows are untouched |
| Storage.SupabaseStorage.DeletePlatformConnection | server/storage.ts:236-247 | the new table is the old one without the pair's rows; the invariant is kept |
| Storage.SupabaseStorage.SaveCampaignMetrics | server/storage.ts:250-279 | the batch is appended to the metric table (an empty batch changes nothing); connections are untouched |
| Storage.SupabaseStorage.GetPlatformPerformance | server/storage.ts:392-486 | the three loops compute the per-platform view of the window's rows and the user's connections |
| Storage.SupabaseStorage.MeasuredPlatforms | server/storage.ts:410-440 | the first loop gives one measured entry per platform present in the rows |
| Storage.SupabaseStorage.ConnectedPlatforms | server/storage.ts:443-458 | the second loop appends a zero entry for each connected platform not yet listed |
| Storage.SupabaseStorage.SamplePerformance | server/storage.ts:461-483 | the sample loop gives the three unconnected zero entries |
| Storage.SupabaseStorage.GetSpendDistribution | server/storage.ts:488-505 | the answer is the spend distribution of the performance view |
| Storage.SupabaseStorage.GetTopCampaigns | server/storage.ts:507-603 | grouping, sorting, slicing and the sample fallback give the top-campaigns function of the selected rows |
| Storage.SupabaseStorage.GroupCampaigns | server/storage.ts:527-547 | the grouping loop leaves the campaign map the grouping function defines |
| Storage.SupabaseStorage.SampleTop | server/storage.ts:595-599 | a positive limit gives the first min(5, limit) samples |
| Storage.SupabaseStorage.GetPerformanceTimeseries | server/storage.ts:605-739 | the day loop, the bucket loop, the point loop and the random fill give the series function of the selected rows |
| Storage.SupabaseStorage.DayList | server/storage.ts:622-628 | the while loop lists every day from start to end, in order, with no gap |
| Storage.SupabaseStorage.Buckets | server/storage.ts:630-676 | every listed day has a bucket, and each bucket holds the per-platform and total sums of that day's rows |
| Storage.SupabaseStorage.Points | server/storage.ts:679-709 | one point per listed day, in order, carrying that day's value in the metric's field |
| Storage.SupabaseStorage.RandomFill | server/storage.ts:712-736 | the i-th point takes the value computed from the i-th draw |
| Performance.PlatformsOf | server/storage.ts:404 | the platforms of the rows, each once |
| Performance.PerformanceEntries | server/storage.ts:404-483 | no rows and no connections give the three samples; otherwise the platforms of the rows come first with their sums, then zero entries for connected platforms without rows; a platform is listed iff it has rows or a connection; none twice |
| Performance.PerformanceFlags | server/storage.ts:437-455 | `isConnected` is true iff the user has a connection for that platform |
| Performance.MetricEntriesAll | server/storage.ts:410-440 | every platform with rows gets exactly one measured entry, in order |
| Performance.AddConnectedShape | server/storage.ts:443-458 | appended entries are zero, connected and new; the list stays free of repeats |
| Performance.NoSamples | server/storage.ts:461 | with rows or connections, no sample platform is added |
| Performance.SharesOf | server/storage.ts:500-504 | one share per platform |
| Performance.SharesSum | server/storage.ts:497-504 | with a positive total, the percentages add up to the spend sum over the total x 100 |
| Performance.SpendDistributionMeaning | server/storage.ts:494-504 | same order and flags as the performance list; each percentage times the total is spend x 100; all zero without spend; they add up to 100 when spend is positive |
| TopCampaigns.KeyIndex | server/storage.ts:529 | `campaignMap.get` finds an entry with the key, or there is none |
| TopCampaigns.Campaigns | server/storage.ts:550 | one campaign per map entry |
| TopCampaigns.InsertPermutes | server/storage.ts:551 | inserting into the sorted list adds exactly the one campaign |
| TopCampaigns.InsertSorted | server/storage.ts:551 | inserting keeps the list in non-increasing ROAS |
| TopCampaigns.InsertStable | server/storage.ts:551 | inserting keeps the order of campaigns with equal ROAS |
| TopCampaigns.SortByRoasFacts | server/storage.ts:551 | the sort is a permutation, in non-increasing ROAS, and stable |
| TopCampaigns.SliceEnd | server/storage.ts:552 | the slice end never passes the length |
| TopCampaigns.SampleCount | server/storage.ts:595-599 | the number of samples is at most five |
| TopCampaigns.SamplesByRoas | server/storage.ts:556-592 | the sample campaigns are already in ROAS order |
| TopCampaigns.TopCampaignsShape | server/storage.ts:549-602 | the answer is in non-increasing ROAS; at most `limit` long; empty for a NaN limit; when there are rows, the first min(limit, groups) sorted groups for a non-negative limit, all but the last -limit for a negative one; the first min(5, limit) samples when there are none |
| TopCampaigns.GroupedMeaning | server/storage.ts:527-547 | one group per key; a group has the first row's name, platform and ROAS and the spend and conversions of all its rows |
| TopCampaigns.GroupedOrder | server/storage.ts:527-550 | groups come in the order in which their keys first appear among the rows |
| TopCampaigns.GroupedStep | server/storage.ts:527-547 | one pass of the grouping loop keeps the groups exact |
| TopCampaigns.FiguresExisting | server/storage.ts:531-533 | a later row of a seen key adds its spend and conversions and leaves ROAS as it was |
| TopCampaigns.FiguresNew | server/storage.ts:534-545 | a row of a new key starts a group with its own figures |
| TopCampaigns.KeyCollision | server/storage.ts:528 | two different (campaign, platform) pairs can share a key |
| Timeseries.Days | server/storage.ts:622-628 | start..end inclusive, with no gap, empty when start > end |
| Timeseries.EntryMeaning | server/storage.ts:636-676 | a day's bucket holds, per platform, the sum of that day's rows; its total is the sum of all the day's rows plus the rows of platform "total" again |
| Timeseries.TimeseriesMeaning | server/storage.ts:622-709 | one point per day, with only the metric's field set: the day's sum for the platform, or the total |
| Timeseries.NoTotalPlatform | server/storage.ts:671-674 | without rows of platform "total", the total is just the day's sum |
| Timeseries.FillRanges | server/storage.ts:712-736 | without rows, draws in [0, 1) give spend in [500, 1000), ROAS in [1, 4), whole conversions in [10, 49], CTR in [0.01, 0.06); other metrics stay unset |
| MetricsRoutes.DateWindow | server/api/metrics.ts:15-16 | the end defaults to today, the start to 30 days before the end |
| MetricsRoutes.PreviousPeriodMeaning | server/api/metrics.ts:19-21 | the previous window ends the day before the start, covers as many days and lies wholly before the current one |
| MetricsRoutes.PercentChangeMeaning | server/api/metrics.ts:30-40 | the change applied to the previous value gives back the current one; 0 when the previous value is 0; positive iff the value grew, when the previous value is positive |
| MetricsRoutes.SummaryRouteMeaning | server/api/metrics.ts:9-48 | the eight figures of the current window are kept; the spend, conversions, ROAS and cost-per-conversion changes are the percent changes from the previous window's totals and averages to the current window's; no previous rows give four zero changes |
| MetricsRoutes.PlatformsRoute | server/api/metrics.ts:56-72 | the answer is the performance view of the defaulted window |
| MetricsRoutes.SpendDistributionRoute | server/api/metrics.ts:75-91 | the answer is the spend distribution of the defaulted window |
| MetricsRoutes.TrimStart | server/api/metrics.ts:107 | `parseInt` drops leading white space only |
| MetricsRoutes.DigitRun | server/api/metrics.ts:107 | the longest digit prefix |
| MetricsRoutes.RunValue | server/api/metrics.ts:107 | a digit run has a non-negative value |
| MetricsRoutes.ParseIntDecimal | server/api/metrics.ts:107 | `parseInt` reads back the decimal text of every integer |
| MetricsRoutes.DefaultLimit | server/api/metrics.ts:97 | without `limit`, the limit is 5 |
| MetricsRoutes.TopCampaignsRoute | server/api/metrics.ts:94-116 | the answer is the top campaigns of the defaulted window with the parsed limit |
| MetricsRoutes.MetricParam | server/api/metrics.ts:122-132 | the metric defaults to "spend"; it is accepted iff it is spend, roas, conversions or ctr; otherwise 400 "Invalid metric" |
| MetricsRoutes.PerformanceRoute | server/api/metrics.ts:119-147 | an invalid metric gives 400 without asking storage; otherwise the answer is the series of the defaulted window |
| MetricsRoutes.FetchRoute | server/api/metrics.ts:163-178 | 400 "Invalid platform" iff a truthy platform is not one of the three names; otherwise the fetch message |
| PlatformRoutes.EnvOr | server/api/platforms.ts:7-13 | a set, non-empty variable wins; otherwise the fallback |
| PlatformRoutes.ConnectRoute | server/api/platforms.ts:30-52 | 400 "Invalid platform" iff the platform is not one of the three |
| PlatformRoutes.TemplateParses | server/api/platforms.ts:39-45 | a template URL with the encoded redirect URI parses back to its pairs with the redirect URI decoded |
| PlatformRoutes.GoogleConnectUrl | server/api/platforms.ts:35-39 | Google's endpoint, the client id, the decoded callback URI, the adwords scope, offline access, consent, and always `code_challenge` with S256 |
| PlatformRoutes.FacebookConnectUrl | server/api/platforms.ts:35-42 | the v14.0 dialog, the decoded callback URI, the ads scopes, the challenge as `state`, no `code_challenge` |
| PlatformRoutes.TikTokConnectUrl | server/api/platforms.ts:35-45 | TikTok's endpoint with `app_id`, the decoded callback URI and the challenge as `state` |
| PlatformRoutes.ChallengeRawSafe | server/api/platforms.ts:39-45 | a challenge computed by the client needs no encoding in these URLs: it holds none of `&`, `=`, `%`, `+`, `?`, `#` |
| PlatformRoutes.Exchanged | server/api/platforms.ts:65-77 | a token body comes back iff the platform is known and the response is ok, and it is the response body |
| PlatformRoutes.NullableText | server/api/platforms.ts:80-89 | a nullable text field is rejected iff present, non-null and not a string; a kept value is that string |
| PlatformRoutes.TextOrNull | server/api/platforms.ts:86-87 | `value || null`: a falsy field becomes null; a truthy field is accepted iff it is a string, and kept as that string |
| PlatformRoutes.ExpiryCoerces | server/api/platforms.ts:85 | `expires_in * 1000` coerces: `true`, `[3600]`, `[[60]]` and `[]` give dates; `[true]`, `[1, 2]` and an object give an invalid date and no record |
| PlatformRoutes.CallbackRecordMeaning | server/api/platforms.ts:80-89 | the record carries the user, the platform, the access token, the refresh token iff it is a string, `now + Number(expires_in) x 1000` for a truthy `expires_in` and null otherwise, each account field iff truthy and then its string, and the whole body as metadata; a record exists iff the platform is known, the response ok, the access token a string, the refresh token absent, null or a string, a truthy `expires_in` a valid date, and truthy account fields strings |
| PlatformRoutes.TikTokEnvelopeRejected | server/api/platforms.ts:80-89 | a TikTok envelope without top-level `access_token` never yields a record |
| PlatformRoutes.CallbackConnects | server/api/platforms.ts:91 | after a successful callback the (user, platform) lookup finds the saved connection |
| PlatformRoutes.CallbackRoute | server/api/platforms.ts:55-98 | success saves exactly the record, advances the id counter as an upsert does and redirects to `/?connection_success=true`; failure redirects to `/?connection_error=true` and leaves storage as it was |
| PlatformRoutes.DisconnectRoute | server/api/platforms.ts:101-112 | the pair's rows are removed, afterwards the lookup finds nothing, and the metrics and the id counter are unchanged |
| Pkce.CharsetIsUnreserved | client/src/lib/auth.ts:8 | the alphabet is exactly the unreserved set of RFC 3986, section 2.3 |
| Pkce.VerifierOf | client/src/lib/auth.ts:16-18 | one character per byte |
| Pkce.GenerateCodeVerifier | client/src/lib/auth.ts:7-21 | the loop gives character i = charset[bytes[i] mod 66] |
| Pkce.VerifierShape | client/src/lib/auth.ts:16-18 | the verifier has one unreserved character per byte |
| Pkce.DefaultVerifierLength | client/src/lib/auth.ts:7 | the default length 64 lies in the 43..128 range of RFC 7636, section 4.1 |
| Pkce.CodeChallengeIsS256 | client/src/lib/auth.ts:32-38 | the challenge is base64url(SHA-256(ASCII(verifier))) as in RFC 7636, section 4.2, and 43 characters for a 32-byte digest |
| Pkce.VerifierKeyInjective | client/src/lib/auth.ts:62 | distinct platforms never share a storage key |
| Pkce.GetStoredCodeVerifier | client/src/lib/auth.ts:61-63 | a value is found iff the platform's key is set |
| Pkce.VerifierStorage | client/src/lib/auth.ts:61-68 | a stored verifier reads back; a cleared one reads as null; other platforms' keys are untouched |
| Base64.Base64UrlRoundTrip | client/src/lib/auth.ts:24-29 | unpadded base64url decodes back to the bytes |
| Base64.Base64UrlLength | client/src/lib/auth.ts:24-29 | the text has ceil(4n/3) characters |
| Base64.Base64UrlEncodeIsRfc4648 | client/src/lib/auth.ts:24-29 | `btoa`, the two replacements and stripping `=` give exactly base64url without padding (RFC 4648, section 5) |
| Base64.Base64UrlEncodeShape | client/src/lib/auth.ts:24-29 | the text has only URL-safe characters, no '+', '/' or '=' |
| UrlEncoding.Utf8RoundTrip | client/src/lib/auth.ts:33-34 | the UTF-8 bytes decode back to the text |
| UrlEncoding.EncodeRoundTrip | server/api/platforms.ts:39-45 | both percent-encoders are undone by decoding |
| UrlEncoding.SerializeRoundTrip | client/src/lib/api/adapters/google-ads.ts:23-39 | `URLSearchParams` text parses back to the same list |
| UrlEncoding.QueryUrl | client/src/lib/api/adapters/google-ads.ts:39 | `endpoint?` + serialized params gives back the endpoint and the list |
| UrlEncoding.LookupAt | client/src/lib/api/adapters/google-ads.ts:34-37 | `get` returns the value of the first pair with the name |
| OAuth.Decode | client/src/lib/api/adapters/google-ads.ts:68-73 | a response decodes to its body iff it is ok |
| OAuth.ErrorText | client/src/lib/api/adapters/google-ads.ts:70 | a truthy message becomes the error text; anything else gives the fixed text |
| GoogleAds.PlatformIdIsGoogle | client/src/lib/api/adapters/google-ads.ts:17-19 | the id is "google_ads" |
| GoogleAds.Adapter.GenerateAuthUrl | client/src/lib/api/adapters/google-ads.ts:22-40 | the URL is the endpoint followed by the serialized parameter list |
| GoogleAds.AuthorizeUrlParses | client/src/lib/api/adapters/google-ads.ts:39 | the authorize URL goes to Google and its query parses back to the list |
| GoogleAds.AuthorizeParamsCarry | client/src/lib/api/adapters/google-ads.ts:23-37 | the seven base parameters are always there; `code_challenge` and S256 iff the challenge is non-empty |
| GoogleAds.Adapter.BuildExchangeParams | client/src/lib/api/adapters/google-ads.ts:48-59 | the body is the base grant, then `code_verifier` iff one is given |
| GoogleAds.ExchangeParamsCarry | client/src/lib/api/adapters/google-ads.ts:48-59 | the exchange sends the authorization_code grant, and `code_verifier` iff one was given |
| GoogleAds.RefreshParamsCarry | client/src/lib/api/adapters/google-ads.ts:82-87 | a refresh sends the refresh_token grant with the given token |
| GoogleAds.ExchangeResultCases | client/src/lib/api/adapters/google-ads.ts:68-73 | tokens iff ok; a failure carries a truthy `error_description` or the fixed text |
| MetaAds.PlatformIdIsFacebook | client/src/lib/api/adapters/meta-ads.ts:17-19 | the id is "facebook_ads" |
| MetaAds.AuthorizeUrlParses | client/src/lib/api/adapters/meta-ads.ts:22-32 | the v17.0 dialog, with a query that parses back to the list |
| MetaAds.AuthorizeParamsCarry | client/src/lib/api/adapters/meta-ads.ts:23-29 | client id, redirect URI, state, response_type=code, the ads scopes, and no PKCE |
| MetaAds.FbExchangeParamsCarry | client/src/lib/api/adapters/meta-ads.ts:75-80 | the fb_exchange_token grant with the given token |
| MetaAds.FbExchangeUrls | client/src/lib/api/adapters/meta-ads.ts:59-112 | the long-lived and refresh URLs hit the token endpoint with the first token or the refresh token |
| MetaAds.ExchangeResultShape | client/src/lib/api/adapters/meta-ads.ts:51-65 | tokens iff both hops are ok; the result is the long-lived token's access_token and expires_in with type bearer |
| MetaAds.ConversionActions | client/src/lib/api/adapters/meta-ads.ts:209-212 | an action is kept iff it is in the list and is a purchase or offsite_conversion |
| MetaAds.ExtractConversionsAdditive | client/src/lib/api/adapters/meta-ads.ts:205-216 | no list gives 0; the count is additive over concatenation |
| MetaAds.ExtractConversionsSingle | client/src/lib/api/adapters/meta-ads.ts:215 | one action counts its value (missing as 0) iff it is a conversion |
| MetaAds.ExtractConversionsIgnoresOthers | client/src/lib/api/adapters/meta-ads.ts:209-212 | other actions do not change the count |
| TikTokAds.PlatformIdIsTikTok | client/src/lib/api/adapters/tiktok-ads.ts:17-19 | the id is "tiktok_ads" |
| TikTokAds.AuthorizeUrlParses | client/src/lib/api/adapters/tiktok-ads.ts:22-31 | TikTok's endpoint, with a query that parses back to the list |
| TikTokAds.AuthorizeParamsCarry | client/src/lib/api/adapters/tiktok-ads.ts:23-28 | `app_id` rather than client_id, redirect URI, state, response_type=code, no scope, no PKCE |
| TikTokAds.NonZeroCodeFails | client/src/lib/api/adapters/tiktok-ads.ts:60-62 | an envelope whose code is not 0, or is missing, fails with its truthy message or "TikTok API error" |
| TikTokAds.ExchangeSuccess | client/src/lib/api/adapters/tiktok-ads.ts:64-73 | code 0 gives the data's tokens, type bearer, the advertiser id as text and the advertiser name |
| TikTokAds.TokenFieldsMeaning | client/src/lib/api/adapters/tiktok-ads.ts:66-69 | the token part of a result holds token_type "bearer" and each of access_token, refresh_token, expires_in exactly when the data has it, with the data's value |
| TikTokAds.RefreshHasNoAccount | client/src/lib/api/adapters/tiktok-ads.ts:107-114 | a refresh succeeds exactly when an exchange would, with the same token fields and no account fields |

## Left out

- Network calls: every `fetch` is replaced by a given `HttpResponse`. Request headers, HTTP methods, timeouts and thrown network errors are not modelled.
- Response bodies are JSON objects. A body that is not JSON (an HTML error page, say), on which `response.json()` throws a SyntaxError before any error text is built, is not modelled; neither is a JSON body that is not an object. At the callback either one ends in the error redirect, as a rejected record does.
- Concurrency: requests are modelled one at a time. The lookup-then-write of `savePlatformConnection` is not atomic, and platform_connections has no unique (user_id, platform) constraint, so two interleaved saves for one pair can both insert. `.single()` then never finds the pair again, and every later save inserts another row.
- Database errors: the code logs them and returns an empty answer or rethrows. Row timestamps (`created_at`, `updated_at`) are also left out.
- `getMetricInsights` and the user operations of server/storage.ts: database access and wall-clock timestamps with no further logic.
- server/database-storage.ts: an unused alternative backend. server/auth.ts, server/routes.ts and the Supabase client set-up: session and routing glue.
- The React pages, components and hooks: presentation only.
- `getOAuthStateFromUrl` and `clearOAuthParamsFromUrl` (client/src/lib/auth.ts:41-58): they read and rewrite `window.location`.
- The stub adapter methods `fetchCampaignMetrics`, `fetchCampaignDetails` and `convertToStandardMetrics`: they return `[]` or throw. The TikTok exchange and refresh request bodies are built but no property is stated about them.
- `crypto.getRandomValues`, `Math.random` and SHA-256 are parameters. Their distribution and cryptographic strength are not modelled.
- MetricsRoutes.DateWindow: the query's date strings are taken as already parsed day numbers. `new Date(...)` parsing and an invalid date are not modelled, and an empty string is treated as absent. Window bounds are whole days, not instants: with no dates in the query the code compares rows against the current instant and the instant 30 days before it, so rows of day end-30 stamped before the current time of day, and rows of day end stamped after it, are excluded, while the model includes both whole days.
- MetricsRoutes.ParseInt: white space is limited to ASCII blanks, no-break space and the byte-order mark, not every Unicode space. Results beyond 2^53 are exact integers, not rounded doubles.
- PlatformRoutes.CallbackRecordMeaning: a string in `expires_in`, alone or as the one element of an array, is taken as NaN, so the record is rejected. JavaScript would parse a numeric string as a number.
- Query parameters given several times (arrays in Express) are not modelled. Each parameter is absent or a single string.
- MetaAds.ExtractConversions: action values are taken as numbers, and list elements as objects. The Graph API sends values as strings, which `sum + value` would concatenate, and a null element would throw a TypeError.
- IEEE floating point and time zones: values are exact reals, and the day of a row is its day number.
