# FtxApi request signing and shaping, in Dafny

This project models the request layer of the FtxApi C# client for the FTX
exchange REST API:

- the credential record `Client`;
- the `HttpMethod` enumeration;
- `GenerateSignature`. It stores a fresh nonce in the client's `_nonce`
  field and signs `nonce ++ VERB ++ url ++ body` with HMAC-SHA256. The key is
  the API secret. It renders the hash as lower-case hex.
- the verb dispatcher `CallAsync` and the authenticated dispatcher
  `CallAsyncSign`. In the source, `CallAsyncSign` always throws
  `NotImplementedException`.
- the 39 public endpoint methods, each as the request it builds: verb,
  resource path, and for authenticated calls the signed url, verb and body;
- the instrument-name helpers `IsPerpetual` and `GetUnderlyingName`.

Everything is a pure function over immutable datatypes. The client object's
mutable state (`_nonce`, plus the HMAC keyed at construction) is the record
`Signing.RestApi`. Each operation that writes the field returns the updated
record.

Modules, one per concern:

| file | module | models |
|---|---|---|
| wrappers.dfy | `Wrappers` | `null` as `Option`, thrown exceptions as `Result` |
| text.dfy | `Text` | ordinal search, ASCII case mapping, decimal rendering of integers |
| hex.dfy | `Hex` | `BitConverter.ToString`, `Replace("-", "")`, `ToLower()` on a hash |
| http_method.dfy | `HttpMethods` | `FtxApi/Enums/HttpMethod.cs` |
| client.dfy | `Clients` | `FtxApi/Client.cs` |
| signing.dfy | `Signing` | the constructor and `GenerateSignature` |
| dispatch.dfy | `Dispatch` | `CallAsync`, `CallAsyncSign` |
| endpoints.dfy | `Endpoints` | the endpoint methods and their bodies, grouped by the regions of the client class |
| invoke.dfy | `Invocation` | running an endpoint against the client state |
| instruments.dfy | `Instruments` | `IsPerpetual`, `GetUnderlyingName` |

The library calls are parameters of the functions that use them:

- `Encoding.UTF8.GetBytes` is a `string -> seq<byte>` function.
- HMAC-SHA256 is a `(key, message) -> hash` function.
- The wall-clock nonce is an `int64`.

Three features of the code shape the model:

- `_nonce` is a field of the client object (FtxApi/FtxRestApi.cs:22).
  `GenerateSignature` overwrites it before it builds the signed string
  (line 570). The model threads it through a `RestApi` state record.
- Request bodies are strings the endpoint methods build by interpolation.
  They are modelled as those strings.
- The header code in `CallAsyncSign` (lines 547-564) is commented out. It
  would have added `FTX-KEY`, `FTX-SIGN` and `FTX-TS` headers. The live
  method throws `NotImplementedException`, so an authenticated call sends
  nothing.

## Model

| member | source | states |
|---|---|---|
| `Clients.EmptyClient` | FtxApi/Client.cs:11-16 | the parameterless constructor sets key, secret and sub-account all to the empty string |
| `Clients.NewClient` | FtxApi/Client.cs:18-23 | key and secret are stored verbatim; the sub-account is what was passed, `null` when omitted |
| `Clients.EmptyCredentialsDifferFromAnonymous` | FtxApi/Client.cs:11-22 | omitting the sub-account gives `null`, so `new Client("", "")` differs from `new Client()` |
| `HttpMethods.Code` | FtxApi/Enums/HttpMethod.cs:3-12 | a verb's stored byte is below 8 and is its position in declaration order |
| `HttpMethods.FromCode` | FtxApi/Enums/HttpMethod.cs:3-12 | a byte names a verb exactly when it is below 8, and that verb's code is the byte |
| `HttpMethods.CodeRoundTrip` | FtxApi/Enums/HttpMethod.cs:3-12 | reading back a verb's code gives the verb |
| `HttpMethods.ExactlyEightVerbs` | FtxApi/Enums/HttpMethod.cs:5-12 | the declaration lists eight pairwise distinct verbs and every verb is among them |
| `HttpMethods.Name` | FtxApi/Enums/HttpMethod.cs:5-12 | every verb name is non-empty and upper-case ASCII |
| `HttpMethods.UpperNameIsName` | FtxApi/Enums/HttpMethod.cs:5-12 | `ToUpper()` of a verb name is the name itself |
| `HttpMethods.NamesPrefixFree` | FtxApi/Enums/HttpMethod.cs:5-12 | no verb name is a prefix of another verb's name |
| `HttpMethods.NameInjective` | FtxApi/Enums/HttpMethod.cs:5-12 | distinct verbs have distinct names |
| `Text.IndexOf` | FtxApi/Util/Util.cs:31-36 | the result is -1 exactly when the character is absent, else the index of its first occurrence |
| `Text.Contains` | FtxApi/Util/Util.cs:27 | substring search holds exactly when the pattern occurs at some position |
| `Text.Decimal` | FtxApi/FtxRestApi.cs:571 | the nonce's text is non-empty, uses only digits and `-`, starts with a digit exactly when the nonce is non-negative, and has no leading zero (`0` alone, and no `-0`) |
| `Text.ParseDecimalRoundTrip` | FtxApi/FtxRestApi.cs:571 | the nonce's decimal text reads back to the nonce |
| `Text.DecimalInjective` | FtxApi/FtxRestApi.cs:571 | distinct nonces have distinct decimal texts |
| `Text.ToUpperMapsCase` | FtxApi/FtxRestApi.cs:571 | `ToUpper` keeps the length, leaves no lower-case letter, keeps every other character, and each raised letter lowers back to the original |
| `Text.ToLowerMapsCase` | FtxApi/FtxRestApi.cs:574 | `ToLower` keeps the length, leaves no upper-case letter, keeps every other character, and each lowered letter raises back to the original |
| `Hex.BitConverterToString` | FtxApi/FtxRestApi.cs:573 | `BitConverter.ToString` gives `""` for no bytes, otherwise three characters per byte less one |
| `Hex.BitConverterToStringAt` | FtxApi/FtxRestApi.cs:573 | byte k becomes its upper-case pair at characters 3k and 3k+1, high nibble first, followed by `-` unless it is the last byte |
| `Hex.RemoveDashes` | FtxApi/FtxRestApi.cs:573 | after `Replace("-", "")` no dash is left, every other character keeps its count, and a text without dashes is unchanged |
| `Hex.LowerHex` | FtxApi/FtxRestApi.cs:572-574 | the digest text is twice as long as the hash and uses only `0-9a-f` |
| `Hex.LowerHexAt` | FtxApi/FtxRestApi.cs:572-574 | byte k of the hash becomes characters 2k and 2k+1, high nibble first |
| `Hex.RenderDigestIsLowerHex` | FtxApi/FtxRestApi.cs:572-574 | `RenderDigest`, the rendering as written (upper-case dashed pairs, minus dashes, lower-cased), equals plain lower-case hex for every hash |
| `Hex.DecodeLowerHexRoundTrip` | FtxApi/FtxRestApi.cs:572-574 | decoding the digest text gives back the hash |
| `Hex.LowerHexInjective` | FtxApi/FtxRestApi.cs:572-574 | distinct hashes give distinct digest texts |
| `Signing.NewRestApi` | FtxApi/FtxRestApi.cs:24-34 | the HMAC is keyed with the UTF-8 bytes of the client's secret, and `_nonce` starts at 0 |
| `Signing.CanonicalString` | FtxApi/FtxRestApi.cs:571 | the signed string is decimal nonce, verb name, url, body, in that order, with no separators |
| `Signing.GenerateSignature` | FtxApi/FtxRestApi.cs:568-575 | only `_nonce` changes, to the fresh nonce; the digest is lower-case hex of the keyed MAC of the string built from that nonce, twice the hash length |
| `Signing.CanonicalStringDeterminesNonceAndVerb` | FtxApi/FtxRestApi.cs:571 | equal signed strings have equal nonce, equal verb, and equal url-plus-body text |
| `Signing.DigestDeterminesNonceAndVerb` | FtxApi/FtxRestApi.cs:568-575 | unless the two signed strings collide after UTF-8 encoding and HMAC, equal digests mean the same nonce, verb and url-plus-body |
| `Signing.AccountInfoCanonicalExample` | FtxApi/FtxRestApi.cs:151-152 | nonce 1000 with GET `/api/account` and empty body signs `1000GET/api/account` |
| `Dispatch.CallAsync` | FtxApi/FtxRestApi.cs:521-543 | a byte naming a verb issues the same-named transport call on the endpoint; any other byte throws `ArgumentException("HttpMethod not valid")` |
| `Dispatch.CallAsyncTotalOnVerbs` | FtxApi/FtxRestApi.cs:521-542 | for every enum value the fallback exception is unreachable |
| `Dispatch.CallAsyncSeparatesVerbs` | FtxApi/FtxRestApi.cs:523-540 | distinct verbs reach distinct transport operations |
| `Dispatch.CallAsyncIgnoresBody` | FtxApi/FtxRestApi.cs:521-541 | the body argument does not affect the call issued |
| `Dispatch.CallAsyncSign` | FtxApi/FtxRestApi.cs:545-566 | the call throws `NotImplementedException` for every argument |
| `Endpoints.GetCoinsAsync` | FtxApi/FtxRestApi.cs:38-45 | unauthenticated GET of an `api/` resource |
| `Endpoints.GetAllFuturesAsync` | FtxApi/FtxRestApi.cs:51-58 | unauthenticated GET of an `api/` resource |
| `Endpoints.GetFutureAsync` | FtxApi/FtxRestApi.cs:60-67 | unauthenticated GET of an `api/` resource |
| `Endpoints.GetFutureStatsAsync` | FtxApi/FtxRestApi.cs:69-76 | unauthenticated GET of an `api/` resource |
| `Endpoints.GetFundingRatesBetweenAsync` | FtxApi/FtxRestApi.cs:78-85 | the overload `GetFundingRatesAsync(DateTime, DateTime)`, renamed because Dafny has no overloading: unauthenticated GET of an `api/` resource |
| `Endpoints.GetFundingRatesAsync` | FtxApi/FtxRestApi.cs:87-94 | unauthenticated GET of an `api/` resource |
| `Endpoints.GetHistoricalPricesAsync` | FtxApi/FtxRestApi.cs:96-103 | unauthenticated GET of an `api/` resource |
| `Endpoints.GetMarketsAsync` | FtxApi/FtxRestApi.cs:109-116 | unauthenticated GET of an `api/` resource |
| `Endpoints.GetSingleMarketsAsync` | FtxApi/FtxRestApi.cs:118-125 | unauthenticated GET of an `api/` resource |
| `Endpoints.GetMarketOrderBookAsync` | FtxApi/FtxRestApi.cs:127-134 | unauthenticated GET of an `api/` resource |
| `Endpoints.GetMarketTradesAsync` | FtxApi/FtxRestApi.cs:136-143 | unauthenticated GET of an `api/` resource |
| `Endpoints.GetAccountInfoAsync` | FtxApi/FtxRestApi.cs:149-157 | signed GET: signs `"/"` plus the path, the same verb and an empty body; passes no body |
| `Endpoints.GetPositionsAsync` | FtxApi/FtxRestApi.cs:160-168 | signed GET: signs `"/"` plus the path, the same verb and an empty body; passes no body |
| `Endpoints.ChangeAccountLeverageAsync` | FtxApi/FtxRestApi.cs:170-181 | signed POST: signs `"/"` plus the path, the same verb and the body it passes |
| `Endpoints.GetCoinAsync` | FtxApi/FtxRestApi.cs:187-196 | signed GET: signs `"/"` plus the path, the same verb and an empty body; passes no body |
| `Endpoints.GetBalancesAsync` | FtxApi/FtxRestApi.cs:198-207 | signed GET: signs `"/"` plus the path, the same verb and an empty body; passes no body |
| `Endpoints.GetDepositAddressAsync` | FtxApi/FtxRestApi.cs:209-218 | signed GET: signs `"/"` plus the path, the same verb and an empty body; passes no body |
| `Endpoints.GetDepositHistoryAsync` | FtxApi/FtxRestApi.cs:220-229 | signed GET: signs `"/"` plus the path, the same verb and an empty body; passes no body |
| `Endpoints.GetWithdrawalHistoryAsync` | FtxApi/FtxRestApi.cs:231-240 | signed GET: signs `"/"` plus the path, the same verb and an empty body; passes no body |
| `Endpoints.RequestWithdrawalAsync` | FtxApi/FtxRestApi.cs:242-260 | signed POST: signs `"/"` plus the path, the same verb and the body it passes |
| `Endpoints.PlaceOrderAsync` | FtxApi/FtxRestApi.cs:266-282 | signed POST of a body whose `type` is the order-type argument and which ends in the lower-case `reduceOnly` |
| `Endpoints.PlaceStopOrderAsync` | FtxApi/FtxRestApi.cs:284-300 | signed POST of a body whose `type` is `stop` and which ends in the lower-case `reduceOnly` |
| `Endpoints.PlaceTrailingStopOrderAsync` | FtxApi/FtxRestApi.cs:302-318 | signed POST of a body whose `type` is `trailingStop` and which ends in the lower-case `reduceOnly` |
| `Endpoints.PlaceTakeProfitOrderAsync` | FtxApi/FtxRestApi.cs:320-336 | signed POST of a body whose `type` is `takeProfit` and which ends in the lower-case `reduceOnly` |
| `Endpoints.GetOpenOrdersAsync` | FtxApi/FtxRestApi.cs:338-347 | signed GET: signs `"/"` plus the path with its query, the same verb and an empty body; passes no body |
| `Endpoints.GetOrderStatusAsync` | FtxApi/FtxRestApi.cs:349-358 | signed GET: signs `"/"` plus the path, the same verb and an empty body; passes no body |
| `Endpoints.GetOrderStatusByClientIdAsync` | FtxApi/FtxRestApi.cs:360-369 | signed GET: signs `"/"` plus the path, the same verb and an empty body; passes no body |
| `Endpoints.CancelOrderAsync` | FtxApi/FtxRestApi.cs:371-380 | signed DELETE: signs `"/"` plus the path, the same verb and an empty body; passes no body |
| `Endpoints.CancelOrderByClientIdAsync` | FtxApi/FtxRestApi.cs:382-391 | signed DELETE: signs `"/"` plus the path, the same verb and an empty body; passes no body |
| `Endpoints.CancelAllOrdersAsync` | FtxApi/FtxRestApi.cs:393-405 | signed DELETE: signs `"/"` plus the path, the same verb and the body it passes |
| `Endpoints.GetFillsAsync` | FtxApi/FtxRestApi.cs:411-420 | signed GET: signs `"/"` plus the path with its query, the same verb and an empty body; passes no body |
| `Endpoints.GetFundingPaymentAsync` | FtxApi/FtxRestApi.cs:426-435 | signed GET: signs `"/"` plus the path with its query, the same verb and an empty body; passes no body |
| `Endpoints.GetLeveragedTokensListAsync` | FtxApi/FtxRestApi.cs:441-448 | unauthenticated GET of an `api/` resource |
| `Endpoints.GetTokenInfoAsync` | FtxApi/FtxRestApi.cs:450-457 | unauthenticated GET of an `api/` resource |
| `Endpoints.GetLeveragedTokenBalancesAsync` | FtxApi/FtxRestApi.cs:459-468 | signed GET: signs `"/"` plus the path, the same verb and an empty body; passes no body |
| `Endpoints.GetLeveragedTokenCreationListAsync` | FtxApi/FtxRestApi.cs:470-479 | signed GET: signs `"/"` plus the path, the same verb and an empty body; passes no body |
| `Endpoints.RequestLeveragedTokenCreationAsync` | FtxApi/FtxRestApi.cs:481-492 | signed POST: signs `"/"` plus the path, the same verb and the body it passes |
| `Endpoints.GetLeveragedTokenRedemptionListAsync` | FtxApi/FtxRestApi.cs:494-503 | signed GET: signs `"/"` plus the path, the same verb and an empty body; passes no body |
| `Endpoints.RequestLeveragedTokenRedemptionAsync` | FtxApi/FtxRestApi.cs:505-516 | signed POST: signs `"/"` plus the path, the same verb and the body it passes |
| `Endpoints.Describe` | FtxApi/FtxRestApi.cs:38-518 | every endpoint's resource is under `api/`, and every signed endpoint signs the url, verb and body it sends |
| `Endpoints.ReduceOnlyRendering` | FtxApi/FtxRestApi.cs:276 | `reduceOnly.ToString().ToLower()` is `true` or `false`; the helper `BoolText` is `bool.ToString()`, `True` or `False` |
| `Endpoints.OrderBodyMembers` | FtxApi/FtxRestApi.cs:270-276 | `OrderBody`, the body all four order methods build (also lines 288-294, 306-312, 324-330), contains its `type` member and ends with its `reduceOnly` member |
| `Endpoints.WithdrawalBodyMembers` | FtxApi/FtxRestApi.cs:246-253 | `WithdrawalBody` is braced and carries the coin, size and address members as given |
| `Endpoints.SizeBodyReadsBack` | FtxApi/FtxRestApi.cs:485 | `SizeBody`, the body of token creation and redemption (also line 509), holds exactly the size text between `{"size": ` and `}` |
| `Invocation.Invoke` | FtxApi/FtxRestApi.cs:38-518 | an unauthenticated endpoint issues its transport call and leaves the state alone; a signed one stores the fresh nonce, signs with it, then throws `NotImplementedException` |
| `Invocation.BodylessSignedString` | FtxApi/FtxRestApi.cs:152 | a signed request without a body signs exactly `nonce ++ verb ++ "/" ++ path` |
| `Invocation.RunAll` | FtxApi/FtxRestApi.cs:15-22 | running any calls never changes the client or the HMAC key |
| `Invocation.RunAllKeepsLastSignedNonce` | FtxApi/FtxRestApi.cs:570 | after any sequence of calls, `_nonce` holds the nonce of the last signed call, or its old value if there was none |
| `Instruments.IsPerpetual` | FtxApi/Util/Util.cs:25-28 | true exactly when `-PERP` occurs somewhere in the name |
| `Instruments.PerpetualExamples` | FtxApi/Util/Util.cs:25-28 | `BTC-PERP` is perpetual and `BTC-0626` is not |
| `Instruments.GetUnderlyingName` | FtxApi/Util/Util.cs:29-42 | with a `/` the result is the text before the first `/`; otherwise with a `-` the text before the first `-`; otherwise `ArgumentException` |
| `Instruments.UnderlyingNameIsProperPrefix` | FtxApi/Util/Util.cs:31-38 | on success the result is a proper prefix without `/`, and without `-` when the name has no `/` |
| `Instruments.SlashTakesPrecedence` | FtxApi/Util/Util.cs:31-38 | a `/` wins over an earlier `-`: `A-B/C` gives `A-B` |

## Left out

- Transport: the REST client, its base URL `https://ftx.com/` and its 30-second timeout. Async/await and responses are also left out. A dispatch yields the transport call it would issue.
- HMAC-SHA256 and UTF-8 encoding are parameters, not definitions. The model proves nothing about their output beyond what the callers pass through.
- The wall-clock nonce source (`GetNonce`, `GetMillisecondsFromEpochStart()`) is left out. The nonce is a parameter of each call.
- The epoch conversions `GetMillisecondsFromEpochStart(DateTime)` and `GetSecondsFromEpochStart` are left out. They truncate floating-point values. Endpoints take the resulting seconds as `int64` arguments.
- `decimal` arguments are culture-formatted in the source. The model takes them as the text they render to.
- `SideType` and `OrderType` are not part of this model. The model takes their `ToString()` text as a string argument.
- The commented-out header code in `CallAsyncSign` is left out, because it is not live code. It would have added the `FTX-KEY`, `FTX-SIGN` and `FTX-TS` headers.
- Concurrent use of one client object is left out, because the model is sequential. `RunAllKeepsLastSignedNonce` shows that the shared `_nonce` field holds the last signed call's nonce.
- `IndexOf(string)` in `GetUnderlyingName`, `ToUpper` and `ToLower` are culture-sensitive in .NET. They are modelled as ordinal search and ASCII case mapping. `IsPerpetual`'s `Contains` is already ordinal in .NET.
- `long.ToString()` and `int.ToString()` are culture-formatted in .NET. They are modelled with `-` as the negative sign and ASCII digits.
- `null` string arguments are left out. A `null` key is stored and read only by commented-out code, so it never throws. A `null` string passed to an endpoint method is interpolated as empty text. A `null` secret makes `Encoding.UTF8.GetBytes` throw `ArgumentNullException` in the constructor (FtxApi/FtxRestApi.cs:33). A `null` name makes `IsPerpetual` and `GetUnderlyingName` throw `NullReferenceException` (FtxApi/Util/Util.cs:27, 31).
- The hand-built bodies are not checked for JSON well-formedness. The code does no escaping, and `tag` and `code` are unquoted.
- `Signing.DigestDeterminesNonceAndVerb` is conditional: it assumes the two signed strings it compares do not collide after UTF-8 encoding and HMAC. HMAC-SHA256 has a 32-byte output, so collisions exist. The lemma says nothing about a colliding pair.
- `string` here is a sequence of Unicode scalar values. A C# string is UTF-16 and may hold a lone surrogate, which `Encoding.UTF8` replaces with U+FFFD. Two such C# strings can encode to the same bytes. The model does not represent lone surrogates.
- `Signing.CanonicalStringDeterminesNonceAndVerb` recovers the url and body only together. The signed string has no separator between them.
- `Enum.ToString()` renders bytes outside the eight named values as digits. Signing with such a value is left out, and `GenerateSignature` takes a named verb. `CallAsync` does accept any byte.
