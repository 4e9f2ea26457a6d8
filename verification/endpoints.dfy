/** The public endpoint methods of the REST client. Each builds a resource
    path and then either dispatches it directly or, for authenticated calls,
    signs a url, verb and body text and hands the path, verb and body to the
    signed dispatcher. Here each endpoint is a value of `Endpoint`, `Describe`
    gives the request it builds and `Invoke` runs it against the client's
    state.

    `decimal` arguments are taken as the text the current culture renders
    them to; `int` and `long` arguments are rendered in decimal. The
    `DateTime` arguments are taken as the seconds-since-epoch values the
    endpoints compute from them. `SideType` and `OrderType` values are taken
    as their `ToString()` text. */
module Endpoints {
  import opened Wrappers
  import opened Text
  import opened HttpMethods
  import opened Signing
  import opened Dispatch

  /** A C# `int`. */
  type int32 = x: int | -0x8000_0000 <= x < 0x8000_0000

  /** A C# `decimal` as rendered into a body by string interpolation. */
  type DecimalText = string

  /** An endpoint method and its arguments, grouped by the regions of the
      client class. */
  datatype Endpoint =
    | Coins(coins: CoinsEndpoint)
    | Futures(futures: FuturesEndpoint)
    | Markets(markets: MarketsEndpoint)
    | Account(account: AccountEndpoint)
    | Wallet(wallet: WalletEndpoint)
    | Orders(orders: OrdersEndpoint)
    | Fills(fills: FillsEndpoint)
    | Funding(funding: FundingEndpoint)
    | LeveragedTokens(tokens: LeveragedTokensEndpoint)

  datatype CoinsEndpoint = GetCoins

  datatype FuturesEndpoint =
    | GetAllFutures
    | GetFuture(future: string)
    | GetFutureStats(future: string)
    | GetFundingRatesBetween(startSeconds: int64, endSeconds: int64)
    | GetFundingRates
    | GetHistoricalPrices(futureName: string, resolution: int32, limit: int32,
                          startSeconds: int64, endSeconds: int64)

  datatype MarketsEndpoint =
    | GetMarkets
    | GetSingleMarkets(marketName: string)
    | GetMarketOrderBook(marketName: string, depth: int32 := 20)
    | GetMarketTrades(marketName: string, limit: int32, startSeconds: int64, endSeconds: int64)

  datatype AccountEndpoint =
    | GetAccountInfo
    | GetPositions
    | ChangeAccountLeverage(leverage: int32)

  datatype WalletEndpoint =
    | GetCoin
    | GetBalances
    | GetDepositAddress(coin: string)
    | GetDepositHistory
    | GetWithdrawalHistory
    | RequestWithdrawal(coin: string, size: DecimalText, addr: string, tag: string,
                        pass: string, code: string)

  datatype OrdersEndpoint =
    | PlaceOrder(instrument: string, side: string, price: DecimalText, orderType: string,
                 amount: DecimalText, reduceOnly: bool := false)
    | PlaceStopOrder(instrument: string, side: string, triggerPrice: DecimalText,
                     amount: DecimalText, reduceOnly: bool := false)
    | PlaceTrailingStopOrder(instrument: string, side: string, trailValue: DecimalText,
                             amount: DecimalText, reduceOnly: bool := false)
    | PlaceTakeProfitOrder(instrument: string, side: string, triggerPrice: DecimalText,
                           amount: DecimalText, reduceOnly: bool := false)
    | GetOpenOrders(instrument: string)
    | GetOrderStatus(id: string)
    | GetOrderStatusByClientId(clientOrderId: string)
    | CancelOrder(id: string)
    | CancelOrderByClientId(clientOrderId: string)
    | CancelAllOrders(instrument: string)

  datatype FillsEndpoint = GetFills(market: string, limit: int32, startSeconds: int64, endSeconds: int64)

  datatype FundingEndpoint = GetFundingPayment(startSeconds: int64, endSeconds: int64)

  datatype LeveragedTokensEndpoint =
    | GetLeveragedTokensList
    | GetTokenInfo(tokenName: string)
    | GetLeveragedTokenBalances
    | GetLeveragedTokenCreationList
    | RequestLeveragedTokenCreation(tokenName: string, size: DecimalText)
    | GetLeveragedTokenRedemptionList
    | RequestLeveragedTokenRedemption(tokenName: string, size: DecimalText)

  /** What an endpoint method passes on. `Unsigned` is a `CallAsync(verb,
      resource)`; `Signed` is a `GenerateSignature(signedVerb, signedUrl,
      signedBody)` followed by `CallAsyncSign(verb, resource, sign, body)`,
      where `None` is a body argument left at its `null` default. */
  datatype Request =
    | Unsigned(verb: HttpMethod, resource: string)
    | Signed(signedVerb: HttpMethod, signedUrl: string, signedBody: string,
             verb: HttpMethod, resource: string, body: Option<string>)

  /** What an authenticated request signs agrees with what it dispatches:
      the url is `/` and the resource path, the verbs are the same, and the
      body text is the dispatched body, or empty when no body is passed. */
  predicate SignsWhatItSends(r: Request)
    requires r.Signed?
  {
    && r.signedUrl == "/" + r.resource
    && r.signedVerb == r.verb
    && r.signedBody == SignedBodyOf(r.body)
  }

  /** The body text that is signed for a body argument: the body itself, or
      the empty string when none is passed. */
  function SignedBodyOf(body: Option<string>): string
  {
    if body.Some? then body.value else ""
  }

  // ---------------------------------------------------------------------
  // Bodies
  // ---------------------------------------------------------------------

  /** `bool.ToString()`. */
  function BoolText(b: bool): string
  {
    if b then "True" else "False"
  }

  /** The `type` member of an order body. */
  function TypeMember(orderType: string): string
  {
    "\"type\": \"" + orderType + "\""
  }

  /** The closing `reduceOnly` member of an order body. */
  function ReduceOnlyMember(reduceOnly: bool): string
  {
    "\"reduceOnly\": " + ToLower(BoolText(reduceOnly)) + "}"
  }

  /** The members of an order body before `type`: market, side and price. */
  function OrderHead(instrument: string, side: string, priceKey: string, priceValue: DecimalText): string
  {
    "{\"market\": \"" + instrument + "\"," +
    "\"side\": \"" + side + "\"," +
    "\"" + priceKey + "\": " + priceValue + ","
  }

  /** The order body shared by regular and conditional orders; they differ in
      the name of the price member and in where `type` comes from. */
  function OrderBody(instrument: string, side: string, priceKey: string, priceValue: DecimalText,
                     orderType: string, amount: DecimalText, reduceOnly: bool): string
  {
    OrderHead(instrument, side, priceKey, priceValue) +
    TypeMember(orderType) + "," +
    SizeMember(amount) +
    ReduceOnlyMember(reduceOnly)
  }

  function WithdrawalBody(coin: string, size: DecimalText, addr: string, tag: string,
                          pass: string, code: string): string
  {
    "{" +
    CoinMember(coin) +
    SizeMember(size) +
    AddressMember(addr) +
    WithdrawalTail(tag, pass, code)
  }

  /** The tag, password and code members and the closing brace. */
  function WithdrawalTail(tag: string, pass: string, code: string): string
  {
    "\"tag\": " + tag + "," +
    "\"password\": \"" + pass + "\"," +
    "\"code\": " + code +
    "}"
  }

  function SizeBody(size: DecimalText): string
  {
    "{\"size\": " + size + "}"
  }

  /** The coin, size and address members of a withdrawal body. */
  function CoinMember(coin: string): string { "\"coin\": \"" + coin + "\"," }

  function SizeMember(size: DecimalText): string { "\"size\": " + size + "," }

  function AddressMember(addr: string): string { "\"address\": \"" + addr + "\"," }

  /** A withdrawal body is braced and carries the coin, size and address
      members as the caller gave them. */
  lemma WithdrawalBodyMembers(coin: string, size: DecimalText, addr: string, tag: string,
                              pass: string, code: string)
    ensures var body := WithdrawalBody(coin, size, addr, tag, pass, code);
            && body[0] == '{' && body[|body| - 1] == '}'
            && Contains(body, CoinMember(coin))
            && Contains(body, SizeMember(size))
            && Contains(body, AddressMember(addr))
  {
    var tail := WithdrawalTail(tag, pass, code);
    assert tail[|tail| - 1] == '}';
    ContainsEachPart("{", CoinMember(coin), SizeMember(size), AddressMember(addr), tail);
  }

  /** The size body reads back: between its opening member name and its
      closing brace lies exactly the size text. */
  lemma SizeBodyReadsBack(size: DecimalText)
    ensures var body := SizeBody(size);
            && |body| == |size| + 10
            && body[..9] == "{\"size\": " && body[|body| - 1] == '}'
            && body[9..|body| - 1] == size
  {
  }

  /** An order body closes with the `reduceOnly` member holding the
      lower-cased boolean. */
  predicate OrderBodyEnds(body: string, reduceOnly: bool)
  {
    var tail := "\"reduceOnly\": " + (if reduceOnly then "true" else "false") + "}";
    |tail| <= |body| && body[|body| - |tail|..] == tail
  }

  /** `reduceOnly.ToString().ToLower()` is `true` or `false`. */
  lemma ReduceOnlyRendering(reduceOnly: bool)
    ensures ToLower(BoolText(reduceOnly)) == if reduceOnly then "true" else "false"
  {
  }

  /** Every order body carries its `type` member and ends with its
      `reduceOnly` member. */
  lemma OrderBodyMembers(instrument: string, side: string, priceKey: string, priceValue: DecimalText,
                         orderType: string, amount: DecimalText, reduceOnly: bool)
    ensures Contains(OrderBody(instrument, side, priceKey, priceValue, orderType, amount, reduceOnly),
                     TypeMember(orderType))
    ensures OrderBodyEnds(OrderBody(instrument, side, priceKey, priceValue, orderType, amount, reduceOnly),
                          reduceOnly)
  {
    var head := OrderHead(instrument, side, priceKey, priceValue);
    ContainsEachPart(head, TypeMember(orderType), ",", SizeMember(amount), ReduceOnlyMember(reduceOnly));
    EndsWithMember(head + TypeMember(orderType) + "," + SizeMember(amount), reduceOnly);
  }

  /** Any text followed by the `reduceOnly` member ends with it. */
  lemma EndsWithMember(rest: string, reduceOnly: bool)
    ensures OrderBodyEnds(rest + ReduceOnlyMember(reduceOnly), reduceOnly)
  {
    ReduceOnlyRendering(reduceOnly);
    var tail := "\"reduceOnly\": " + (if reduceOnly then "true" else "false") + "}";
    assert ReduceOnlyMember(reduceOnly) == tail;
    assert (rest + tail)[|rest + tail| - |tail|..] == tail;
  }

  // ---------------------------------------------------------------------
  // The endpoint methods
  // ---------------------------------------------------------------------

  /** Resources are relative to the client's base address and live under
      `api/`. */
  predicate IsApiPath(p: string)
  {
    "api/" <= p
  }

  /** An unauthenticated GET of an `api/` resource. */
  predicate PublicGet(r: Request)
  {
    r.Unsigned? && r.verb == GET && IsApiPath(r.resource)
  }

  /** An authenticated call with the given verb that signs what it sends and
      passes a body exactly when `withBody` holds. */
  predicate SignedCall(r: Request, verb: HttpMethod, withBody: bool)
  {
    && r.Signed?
    && r.verb == verb
    && IsApiPath(r.resource)
    && r.body.Some? == withBody
    && SignsWhatItSends(r)
  }

  // Coins

  function GetCoinsAsync(): (r: Request)
    ensures PublicGet(r)
  {
    Unsigned(GET, "api/coins")
  }

  // Futures

  function GetAllFuturesAsync(): (r: Request)
    ensures PublicGet(r)
  {
    Unsigned(GET, "api/futures")
  }

  function GetFutureAsync(future: string): (r: Request)
    ensures PublicGet(r)
  {
    Unsigned(GET, "api/futures/" + future)
  }

  function GetFutureStatsAsync(future: string): (r: Request)
    ensures PublicGet(r)
  {
    Unsigned(GET, "api/futures/" + future + "/stats")
  }

  /** The overload `GetFundingRatesAsync(DateTime, DateTime)`. */
  function GetFundingRatesBetweenAsync(start: int64, end: int64): (r: Request)
    ensures PublicGet(r)
  {
    Unsigned(GET, "api/funding_rates?start_time=" + Decimal(start) + "&end_time=" + Decimal(end))
  }

  function GetFundingRatesAsync(): (r: Request)
    ensures PublicGet(r)
  {
    Unsigned(GET, "api/funding_rates")
  }

  function GetHistoricalPricesAsync(futureName: string, resolution: int32, limit: int32,
                                    start: int64, end: int64): (r: Request)
    ensures PublicGet(r)
  {
    Unsigned(GET, "api/futures/" + futureName + "/mark_candles?resolution=" + Decimal(resolution)
                  + "&limit=" + Decimal(limit) + "&start_time=" + Decimal(start)
                  + "&end_time=" + Decimal(end))
  }

  // Markets

  function GetMarketsAsync(): (r: Request)
    ensures PublicGet(r)
  {
    Unsigned(GET, "api/markets")
  }

  function GetSingleMarketsAsync(marketName: string): (r: Request)
    ensures PublicGet(r)
  {
    Unsigned(GET, "api/markets/" + marketName)
  }

  function GetMarketOrderBookAsync(marketName: string, depth: int32 := 20): (r: Request)
    ensures PublicGet(r)
  {
    Unsigned(GET, "api/markets/" + marketName + "/orderbook?depth=" + Decimal(depth))
  }

  function GetMarketTradesAsync(marketName: string, limit: int32, start: int64, end: int64): (r: Request)
    ensures PublicGet(r)
  {
    Unsigned(GET, "api/markets/" + marketName + "/trades?limit=" + Decimal(limit)
                  + "&start_time=" + Decimal(start) + "&end_time=" + Decimal(end))
  }

  // Account

  function GetAccountInfoAsync(): (r: Request)
    ensures SignedCall(r, GET, false)
  {
    assert "/api/account" == "/" + "api/account";
    assert IsApiPath("api/account");
    Signed(GET, "/api/account", "", GET, "api/account", None)
  }

  function GetPositionsAsync(): (r: Request)
    ensures SignedCall(r, GET, false)
  {
    assert "/api/positions" == "/" + "api/positions";
    assert IsApiPath("api/positions");
    Signed(GET, "/api/positions", "", GET, "api/positions", None)
  }

  function ChangeAccountLeverageAsync(leverage: int32): (r: Request)
    ensures SignedCall(r, POST, true)
  {
    var body := "{\"leverage\": " + Decimal(leverage) + "}";
    assert "/api/account/leverage" == "/" + "api/account/leverage";
    assert IsApiPath("api/account/leverage");
    Signed(POST, "/api/account/leverage", body, POST, "api/account/leverage", Some(body))
  }

  // Wallet

  function GetCoinAsync(): (r: Request)
    ensures SignedCall(r, GET, false)
  {
    assert "/api/wallet/coins" == "/" + "api/wallet/coins";
    assert IsApiPath("api/wallet/coins");
    Signed(GET, "/api/wallet/coins", "", GET, "api/wallet/coins", None)
  }

  function GetBalancesAsync(): (r: Request)
    ensures SignedCall(r, GET, false)
  {
    assert "/api/wallet/balances" == "/" + "api/wallet/balances";
    assert IsApiPath("api/wallet/balances");
    Signed(GET, "/api/wallet/balances", "", GET, "api/wallet/balances", None)
  }

  function GetDepositAddressAsync(coin: string): (r: Request)
    ensures SignedCall(r, GET, false)
  {
    assert "/api/wallet/deposit_address/" == "/" + "api/wallet/deposit_address/";
    assert IsApiPath("api/wallet/deposit_address/");
    Signed(GET, "/api/wallet/deposit_address/" + coin, "", GET, "api/wallet/deposit_address/" + coin, None)
  }

  function GetDepositHistoryAsync(): (r: Request)
    ensures SignedCall(r, GET, false)
  {
    assert "/api/wallet/deposits" == "/" + "api/wallet/deposits";
    assert IsApiPath("api/wallet/deposits");
    Signed(GET, "/api/wallet/deposits", "", GET, "api/wallet/deposits", None)
  }

  function GetWithdrawalHistoryAsync(): (r: Request)
    ensures SignedCall(r, GET, false)
  {
    assert "/api/wallet/withdrawals" == "/" + "api/wallet/withdrawals";
    assert IsApiPath("api/wallet/withdrawals");
    Signed(GET, "/api/wallet/withdrawals", "", GET, "api/wallet/withdrawals", None)
  }

  function RequestWithdrawalAsync(coin: string, size: DecimalText, addr: string, tag: string,
                                  pass: string, code: string): (r: Request)
    ensures SignedCall(r, POST, true)
  {
    var body := WithdrawalBody(coin, size, addr, tag, pass, code);
    assert "/api/wallet/withdrawals" == "/" + "api/wallet/withdrawals";
    assert IsApiPath("api/wallet/withdrawals");
    Signed(POST, "/api/wallet/withdrawals", body, POST, "api/wallet/withdrawals", Some(body))
  }

  // Orders

  function PlaceOrderAsync(instrument: string, side: string, price: DecimalText, orderType: string,
                           amount: DecimalText, reduceOnly: bool := false): (r: Request)
    ensures SignedCall(r, POST, true)
    ensures Contains(r.body.value, TypeMember(orderType))
    ensures OrderBodyEnds(r.body.value, reduceOnly)
  {
    var body := OrderBody(instrument, side, "price", price, orderType, amount, reduceOnly);
    OrderBodyMembers(instrument, side, "price", price, orderType, amount, reduceOnly);
    assert "/api/orders" == "/" + "api/orders";
    assert IsApiPath("api/orders");
    Signed(POST, "/api/orders", body, POST, "api/orders", Some(body))
  }

  /** The request the three conditional-order methods share: they differ
      only in the price member's name and the order type they write. */
  function ConditionalOrder(instrument: string, side: string, priceKey: string, priceValue: DecimalText,
                            orderType: string, amount: DecimalText, reduceOnly: bool): (r: Request)
    ensures SignedCall(r, POST, true)
    ensures Contains(r.body.value, TypeMember(orderType))
    ensures OrderBodyEnds(r.body.value, reduceOnly)
  {
    assert "/api/conditional_orders" == "/" + "api/conditional_orders";
    assert IsApiPath("api/conditional_orders");
    var body := OrderBody(instrument, side, priceKey, priceValue, orderType, amount, reduceOnly);
    OrderBodyMembers(instrument, side, priceKey, priceValue, orderType, amount, reduceOnly);
    Signed(POST, "/api/conditional_orders", body, POST, "api/conditional_orders", Some(body))
  }

  function PlaceStopOrderAsync(instrument: string, side: string, triggerPrice: DecimalText,
                               amount: DecimalText, reduceOnly: bool := false): (r: Request)
    ensures SignedCall(r, POST, true)
    ensures Contains(r.body.value, TypeMember("stop"))
    ensures OrderBodyEnds(r.body.value, reduceOnly)
  {
    ConditionalOrder(instrument, side, "triggerPrice", triggerPrice, "stop", amount, reduceOnly)
  }

  function PlaceTrailingStopOrderAsync(instrument: string, side: string, trailValue: DecimalText,
                                       amount: DecimalText, reduceOnly: bool := false): (r: Request)
    ensures SignedCall(r, POST, true)
    ensures Contains(r.body.value, TypeMember("trailingStop"))
    ensures OrderBodyEnds(r.body.value, reduceOnly)
  {
    ConditionalOrder(instrument, side, "trailValue", trailValue, "trailingStop", amount, reduceOnly)
  }

  function PlaceTakeProfitOrderAsync(instrument: string, side: string, triggerPrice: DecimalText,
                                     amount: DecimalText, reduceOnly: bool := false): (r: Request)
    ensures SignedCall(r, POST, true)
    ensures Contains(r.body.value, TypeMember("takeProfit"))
    ensures OrderBodyEnds(r.body.value, reduceOnly)
  {
    ConditionalOrder(instrument, side, "triggerPrice", triggerPrice, "takeProfit", amount, reduceOnly)
  }

  function GetOpenOrdersAsync(instrument: string): (r: Request)
    ensures SignedCall(r, GET, false)
  {
    assert "/api/orders?market=" == "/" + "api/orders?market=";
    assert IsApiPath("api/orders?market=");
    Signed(GET, "/api/orders?market=" + instrument, "", GET, "api/orders?market=" + instrument, None)
  }

  function GetOrderStatusAsync(id: string): (r: Request)
    ensures SignedCall(r, GET, false)
  {
    assert "/api/orders/" == "/" + "api/orders/";
    assert IsApiPath("api/orders/");
    Signed(GET, "/api/orders/" + id, "", GET, "api/orders/" + id, None)
  }

  function GetOrderStatusByClientIdAsync(clientOrderId: string): (r: Request)
    ensures SignedCall(r, GET, false)
  {
    assert "/api/orders/by_client_id/" == "/" + "api/orders/by_client_id/";
    assert IsApiPath("api/orders/by_client_id/");
    Signed(GET, "/api/orders/by_client_id/" + clientOrderId, "",
           GET, "api/orders/by_client_id/" + clientOrderId, None)
  }

  function CancelOrderAsync(id: string): (r: Request)
    ensures SignedCall(r, DELETE, false)
  {
    assert "/api/orders/" == "/" + "api/orders/";
    assert IsApiPath("api/orders/");
    Signed(DELETE, "/api/orders/" + id, "", DELETE, "api/orders/" + id, None)
  }

  function CancelOrderByClientIdAsync(clientOrderId: string): (r: Request)
    ensures SignedCall(r, DELETE, false)
  {
    assert "/api/orders/by_client_id/" == "/" + "api/orders/by_client_id/";
    assert IsApiPath("api/orders/by_client_id/");
    Signed(DELETE, "/api/orders/by_client_id/" + clientOrderId, "",
           DELETE, "api/orders/by_client_id/" + clientOrderId, None)
  }

  function CancelAllOrdersAsync(instrument: string): (r: Request)
    ensures SignedCall(r, DELETE, true)
  {
    var body := "{\"market\": \"" + instrument + "\"}";
    assert "/api/orders" == "/" + "api/orders";
    assert IsApiPath("api/orders");
    Signed(DELETE, "/api/orders", body, DELETE, "api/orders", Some(body))
  }

  // Fills

  function GetFillsAsync(market: string, limit: int32, start: int64, end: int64): (r: Request)
    ensures SignedCall(r, GET, false)
  {
    var resultString := "api/fills?market=" + market + "&limit=" + Decimal(limit)
                        + "&start_time=" + Decimal(start) + "&end_time=" + Decimal(end);
    Signed(GET, "/" + resultString, "", GET, resultString, None)
  }

  // Funding

  function GetFundingPaymentAsync(start: int64, end: int64): (r: Request)
    ensures SignedCall(r, GET, false)
  {
    var resultString := "api/funding_payments?start_time=" + Decimal(start) + "&end_time=" + Decimal(end);
    Signed(GET, "/" + resultString, "", GET, resultString, None)
  }

  // Leveraged tokens

  function GetLeveragedTokensListAsync(): (r: Request)
    ensures PublicGet(r)
  {
    Unsigned(GET, "api/lt/tokens")
  }

  function GetTokenInfoAsync(tokenName: string): (r: Request)
    ensures PublicGet(r)
  {
    Unsigned(GET, "api/lt/" + tokenName)
  }

  function GetLeveragedTokenBalancesAsync(): (r: Request)
    ensures SignedCall(r, GET, false)
  {
    assert "/api/lt/balances" == "/" + "api/lt/balances";
    assert IsApiPath("api/lt/balances");
    Signed(GET, "/api/lt/balances", "", GET, "api/lt/balances", None)
  }

  function GetLeveragedTokenCreationListAsync(): (r: Request)
    ensures SignedCall(r, GET, false)
  {
    assert "/api/lt/creations" == "/" + "api/lt/creations";
    assert IsApiPath("api/lt/creations");
    Signed(GET, "/api/lt/creations", "", GET, "api/lt/creations", None)
  }

  function RequestLeveragedTokenCreationAsync(tokenName: string, size: DecimalText): (r: Request)
    ensures SignedCall(r, POST, true)
  {
    var body := SizeBody(size);
    assert "/api/lt/" == "/" + "api/lt/";
    assert IsApiPath("api/lt/");
    Signed(POST, "/api/lt/" + tokenName + "/create", body, POST, "api/lt/" + tokenName + "/create", Some(body))
  }

  function GetLeveragedTokenRedemptionListAsync(): (r: Request)
    ensures SignedCall(r, GET, false)
  {
    assert "/api/lt/redemptions" == "/" + "api/lt/redemptions";
    assert IsApiPath("api/lt/redemptions");
    Signed(GET, "/api/lt/redemptions", "", GET, "api/lt/redemptions", None)
  }

  function RequestLeveragedTokenRedemptionAsync(tokenName: string, size: DecimalText): (r: Request)
    ensures SignedCall(r, POST, true)
  {
    var body := SizeBody(size);
    assert "/api/lt/" == "/" + "api/lt/";
    assert IsApiPath("api/lt/");
    Signed(POST, "/api/lt/" + tokenName + "/redeem", body, POST, "api/lt/" + tokenName + "/redeem", Some(body))
  }

  // ---------------------------------------------------------------------
  // The catalogue as a whole
  // ---------------------------------------------------------------------

  /** The two facts every endpoint guarantees: its resource is under
      `api/`, and if it is signed it signs what it sends. */
  predicate WellShaped(r: Request)
  {
    IsApiPath(r.resource) && (r.Signed? ==> SignsWhatItSends(r))
  }

  /** The request an endpoint method builds. */
  function Describe(e: Endpoint): (r: Request)
    ensures WellShaped(r)
  {
    match e
    case Coins(c) => DescribeCoins(c)
    case Futures(c) => DescribeFutures(c)
    case Markets(c) => DescribeMarkets(c)
    case Account(c) => DescribeAccount(c)
    case Wallet(c) => DescribeWallet(c)
    case Orders(c) => DescribeOrders(c)
    case Fills(c) => DescribeFills(c)
    case Funding(c) => DescribeFunding(c)
    case LeveragedTokens(c) => DescribeLeveragedTokens(c)
  }

  function DescribeCoins(e: CoinsEndpoint): (r: Request)
    ensures WellShaped(r)
  {
    match e
    case GetCoins => GetCoinsAsync()
  }

  function DescribeFutures(e: FuturesEndpoint): (r: Request)
    ensures WellShaped(r)
  {
    match e
    case GetAllFutures => GetAllFuturesAsync()
    case GetFuture(future) => GetFutureAsync(future)
    case GetFutureStats(future) => GetFutureStatsAsync(future)
    case GetFundingRatesBetween(start, end) => GetFundingRatesBetweenAsync(start, end)
    case GetFundingRates => GetFundingRatesAsync()
    case GetHistoricalPrices(futureName, resolution, limit, start, end) =>
      GetHistoricalPricesAsync(futureName, resolution, limit, start, end)
  }

  function DescribeMarkets(e: MarketsEndpoint): (r: Request)
    ensures WellShaped(r)
  {
    match e
    case GetMarkets => GetMarketsAsync()
    case GetSingleMarkets(marketName) => GetSingleMarketsAsync(marketName)
    case GetMarketOrderBook(marketName, depth) => GetMarketOrderBookAsync(marketName, depth)
    case GetMarketTrades(marketName, limit, start, end) => GetMarketTradesAsync(marketName, limit, start, end)
  }

  function DescribeAccount(e: AccountEndpoint): (r: Request)
    ensures WellShaped(r)
  {
    match e
    case GetAccountInfo => GetAccountInfoAsync()
    case GetPositions => GetPositionsAsync()
    case ChangeAccountLeverage(leverage) => ChangeAccountLeverageAsync(leverage)
  }

  function DescribeWallet(e: WalletEndpoint): (r: Request)
    ensures WellShaped(r)
  {
    match e
    case GetCoin => GetCoinAsync()
    case GetBalances => GetBalancesAsync()
    case GetDepositAddress(coin) => GetDepositAddressAsync(coin)
    case GetDepositHistory => GetDepositHistoryAsync()
    case GetWithdrawalHistory => GetWithdrawalHistoryAsync()
    case RequestWithdrawal(coin, size, addr, tag, pass, code) => RequestWithdrawalAsync(coin, size, addr, tag, pass, code)
  }

  function DescribeOrders(e: OrdersEndpoint): (r: Request)
    ensures WellShaped(r)
  {
    match e
    case PlaceOrder(instrument, side, price, orderType, amount, reduceOnly) =>
      PlaceOrderAsync(instrument, side, price, orderType, amount, reduceOnly)
    case PlaceStopOrder(instrument, side, triggerPrice, amount, reduceOnly) =>
      PlaceStopOrderAsync(instrument, side, triggerPrice, amount, reduceOnly)
    case PlaceTrailingStopOrder(instrument, side, trailValue, amount, reduceOnly) =>
      PlaceTrailingStopOrderAsync(instrument, side, trailValue, amount, reduceOnly)
    case PlaceTakeProfitOrder(instrument, side, triggerPrice, amount, reduceOnly) =>
      PlaceTakeProfitOrderAsync(instrument, side, triggerPrice, amount, reduceOnly)
    case GetOpenOrders(instrument) => GetOpenOrdersAsync(instrument)
    case GetOrderStatus(id) => GetOrderStatusAsync(id)
    case GetOrderStatusByClientId(clientOrderId) => GetOrderStatusByClientIdAsync(clientOrderId)
    case CancelOrder(id) => CancelOrderAsync(id)
    case CancelOrderByClientId(clientOrderId) => CancelOrderByClientIdAsync(clientOrderId)
    case CancelAllOrders(instrument) => CancelAllOrdersAsync(instrument)
  }

  function DescribeFills(e: FillsEndpoint): (r: Request)
    ensures WellShaped(r)
  {
    match e
    case GetFills(market, limit, start, end) => GetFillsAsync(market, limit, start, end)
  }

  function DescribeFunding(e: FundingEndpoint): (r: Request)
    ensures WellShaped(r)
  {
    match e
    case GetFundingPayment(start, end) => GetFundingPaymentAsync(start, end)
  }

  function DescribeLeveragedTokens(e: LeveragedTokensEndpoint): (r: Request)
    ensures WellShaped(r)
  {
    match e
    case GetLeveragedTokensList => GetLeveragedTokensListAsync()
    case GetTokenInfo(tokenName) => GetTokenInfoAsync(tokenName)
    case GetLeveragedTokenBalances => GetLeveragedTokenBalancesAsync()
    case GetLeveragedTokenCreationList => GetLeveragedTokenCreationListAsync()
    case RequestLeveragedTokenCreation(tokenName, size) => RequestLeveragedTokenCreationAsync(tokenName, size)
    case GetLeveragedTokenRedemptionList => GetLeveragedTokenRedemptionListAsync()
    case RequestLeveragedTokenRedemption(tokenName, size) => RequestLeveragedTokenRedemptionAsync(tokenName, size)
  }
}
